/** A family of requests that validation accepts, so that what is proved of accepted requests is about something. */
module PlainBuild {
  import opened Wrappers
  import opened Types
  import opened Text
  import opened LockKeys
  import opened Validation

  // Visible ASCII.

  predicate IsVisibleChar(c: char) {
    '!' <= c <= '~'
  }

  predicate IsVisible(s: string) {
    s != "" && forall c :: c in s ==> IsVisibleChar(c)
  }

  lemma {:induction false} AsciiLength(s: string)
    requires forall c :: c in s ==> IsVisibleChar(c)
    ensures Utf8Len(s) == |s|
  {
    if s != "" {
      assert IsVisibleChar(s[0]);
      forall c | c in s[1..] ensures IsVisibleChar(c) {
        assert c in s;
      }
      AsciiLength(s[1..]);
    }
  }

  lemma VisibleIsPlain(c: char)
    requires IsVisibleChar(c)
    ensures !IsWhitespace(c) && !IsControl(c)
  {
  }

  lemma VisibleIsTrimmed(s: string)
    requires IsVisible(s)
    ensures Trim(s) == s && TrimStart(s) == s
  {
    assert s[0] in s && s[|s| - 1] in s;
    VisibleIsPlain(s[0]);
    VisibleIsPlain(s[|s| - 1]);
  }

  lemma VisibleText(name: string, s: string, maxLen: nat)
    requires IsVisible(s) && |s| <= maxLen
    ensures ValidateNoWhitespace(name, s, maxLen) == OK && Trim(s) == s && TrimStart(s) == s && Utf8Len(s) == |s|
    ensures forall c :: c in s ==> !IsControl(c)
  {
    AsciiLength(s);
    VisibleIsTrimmed(s);
    forall c | c in s ensures !IsWhitespace(c) && !IsControl(c) {
      VisibleIsPlain(c);
    }
  }

  lemma {:induction false} SplitWhole(s: string, sep: char)
    requires sep !in s
    ensures Split(s, sep) == [s]
  {
    if s != "" {
      SplitWhole(s[1..], sep);
      assert [s[0]] + s[1..] == s;
    }
  }

  /** A single ordinary name is its own clean path; "." is the root. */
  lemma NamePath(name: string, value: string)
    requires IsVisible(value) && |value| <= 240 && value != ".." && '/' !in value
    requires forall c :: c in value ==> !IsUnsupported(c)
    ensures RelativePath(name, value) == Success([value])
  {
    VisibleText(name, value, 240);
    SplitWhole(value, '/');
    assert value[0] in value && [value][1..] == [];
    assert CleanParts(name, []) == Success([]);
    assert CleanParts(name, [value]) == if value == "." then Success([]) else Success([value]);
  }

  /** An image build with only the required fields. */
  function PlainRequest(repoUrl: string, image: string): BuildRequest {
    BuildRequest(None, None, repoUrl, None, image, None, None, None, None, None, None, None, None)
  }

  lemma PlainImage(c: ValidationConfig, image: string)
    requires IsVisible(image) && |image| <= 512 && image[0] != '-' && '@' in image
    requires HasPrefixIn(image, c.allowedImagePrefixes)
    ensures ValidateImage(c, image, false).Success?
  {
    VisibleText("image", image, 512);
  }

  lemma PlainRepo(repoUrl: string)
    requires IsVisible(repoUrl) && |repoUrl| <= 2048 && StartsWith(repoUrl, "https://")
    ensures ValidateRepoUrl(repoUrl) == OK
  {
    VisibleText("repoUrl", repoUrl, 2048);
  }

  lemma PlainKind(repoUrl: string, image: string)
    ensures ValidateSchema(PlainRequest(repoUrl, image)) == OK && !RunsProfile(PlainRequest(repoUrl, image))
  {
  }

  lemma PlainFiles(repoUrl: string, image: string)
    ensures ValidateFiles(PlainRequest(repoUrl, image)) == OK
  {
    PlainKind(repoUrl, image);
    NamePath("contextDir", ".");
    NamePath("dockerfile", "Dockerfile");
  }

  /** Any digest-pinned image and https repository within the allowlists is accepted. */
  lemma PlainBuildIsAccepted(c: ValidationConfig, repoUrl: string, image: string)
    requires IsVisible(repoUrl) && |repoUrl| <= 2048 && StartsWith(repoUrl, "https://")
    requires HasPrefixIn(repoUrl, c.allowedRepoPrefixes)
    requires IsVisible(image) && |image| <= 512 && image[0] != '-' && '@' in image
    requires HasPrefixIn(image, c.allowedImagePrefixes)
    ensures Accepts(c, PlainRequest(repoUrl, image))
  {
    PlainKind(repoUrl, image);
    PlainFiles(repoUrl, image);
    PlainRepo(repoUrl);
    PlainImage(c, image);
    PlainSubject(c, repoUrl, image);
  }

  lemma PlainSubject(c: ValidationConfig, repoUrl: string, image: string)
    requires ValidateImage(c, image, false).Success?
    ensures ValidateSubject(c, PlainRequest(repoUrl, image)) == OK
  {
  }
}
