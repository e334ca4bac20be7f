/** The text form of job ids. */
module JobIds {
  import opened Wrappers
  import opened Types
  import opened Text

  /** Decimal digits without leading zeros, as integers are formatted. */
  function Decimal(n: nat): string {
    if n < 10 then [DigitChar(n)] else Decimal(n / 10) + [DigitChar(n % 10)]
  }

  function DigitChar(d: nat): char
    requires d < 10
  {
    ('0' as int + d) as char
  }

  function ReadDecimal(s: string): int {
    if s == "" then 0 else 10 * ReadDecimal(s[..|s| - 1]) + (s[|s| - 1] as int - '0' as int)
  }

  /** `job_id`: "build-{now}-{counter}". */
  function JobIdText(id: JobId): string {
    "build-" + Decimal(id.atMs) + "-" + Decimal(id.counter)
  }

  lemma {:induction false} DecimalReadsBack(n: nat)
    ensures ReadDecimal(Decimal(n)) == n
    ensures forall c :: c in Decimal(n) ==> IsDigit(c)
  {
    var last := [DigitChar(n % 10)];
    if n < 10 {
      assert last[..0] == "";
    } else {
      DecimalReadsBack(n / 10);
      assert Decimal(n)[..|Decimal(n)| - 1] == Decimal(n / 10);
    }
  }

  /** The text after "build-" splits back into the two numbers. */
  lemma JobIdTextParts(id: JobId)
    ensures |JobIdText(id)| >= 6 && SplitOnce(JobIdText(id)[6..], '-') == Some((Decimal(id.atMs), Decimal(id.counter)))
  {
    DecimalReadsBack(id.atMs);
    SplitOnceAt(Decimal(id.atMs), '-', Decimal(id.counter));
    assert JobIdText(id)[6..] == Decimal(id.atMs) + ['-'] + Decimal(id.counter);
  }

  /** Two numbers never share a text, so ids that differ in counter or time differ as text. */
  lemma JobIdTextIsInjective(a: JobId, b: JobId)
    requires JobIdText(a) == JobIdText(b)
    ensures a == b
  {
    JobIdTextParts(a);
    JobIdTextParts(b);
    DecimalIsInjective(a.atMs, b.atMs);
    DecimalIsInjective(a.counter, b.counter);
  }

  lemma DecimalIsInjective(m: nat, n: nat)
    ensures Decimal(m) == Decimal(n) ==> m == n
  {
    DecimalReadsBack(m);
    DecimalReadsBack(n);
  }
}
