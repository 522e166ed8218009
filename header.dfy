/** The header text that `JobController.start` shows in the dialog and
    prints to the log (JobController.java:134-140). */
module Header {
  import opened BatchSpec

  predicate IsDigit(c: char)
  {
    '0' as int <= c as int <= '9' as int
  }

  /** Java's decimal rendering of a non-negative int. */
  function Dec(n: nat): (r: string)
    ensures |r| >= 1 && forall i :: 0 <= i < |r| ==> IsDigit(r[i])
    ensures n > 0 ==> r[0] != '0'
  {
    if n < 10 then ["0123456789"[n]]
    else Dec(n / 10) + ["0123456789"[n % 10]]
  }

  /** The value of a string of decimal digits. */
  function DecValue(s: string): nat
    requires forall i :: 0 <= i < |s| ==> IsDigit(s[i])
  {
    if |s| == 0 then 0
    else
      assert IsDigit(s[|s| - 1]);
      DecValue(s[..|s| - 1]) * 10 + (s[|s| - 1] as int - '0' as int)
  }

  /** Reading the rendered number back gives the number. */
  lemma {:induction false} DecRoundTrip(n: nat)
    ensures DecValue(Dec(n)) == n
  {
    if n >= 10 {
      var d := Dec(n);
      assert d[..|d| - 1] == Dec(n / 10);
      DecRoundTrip(n / 10);
    }
  }

  function Plural(k: int): string
  {
    if k == 1 then "" else "s"
  }

  /** The header: the number of jobs, then in parentheses the number of
      jobs `start` admits, min(numCores, number of jobs); when cores are left
      over their total follows, and it is always plural. */
  function HeaderText(n: nat, cores: nat): (r: string)
    requires n > 0
    ensures r == "Running: " + Dec(n) + " network" + Plural(n) + " (" + Dec(NumInitialJobs(n, cores))
                 + (if cores > n then " out of " + Dec(cores) + " cores used)"
                    else " core" + Plural(cores) + " used)")
  {
    var text := "Running: " + Dec(n) + " network" + Plural(n);
    if cores > n then
      text + " (" + Dec(n) + " out of " + Dec(cores) + " core" + Plural(cores) + " used)"
    else
      text + " (" + Dec(cores) + " core" + Plural(cores) + " used)"
  }
}
