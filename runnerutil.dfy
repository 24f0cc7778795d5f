/** `AnsibleVerbosityString`: the `-v...` flag for a verbosity level. */
module RunnerUtil {
  import Text

  /** Empty for the default verbosity 0 (and below); otherwise a dash
      followed by one `v` per level. */
  function AnsibleVerbosityString(verbosity: int): (flag: string)
    ensures verbosity <= 0 ==> flag == ""
    ensures verbosity > 0 ==> |flag| == verbosity + 1 && flag[0] == '-'
    ensures forall i :: 1 <= i < |flag| ==> flag[i] == 'v'
  {
    if verbosity > 0 then "-" + Text.Repeat('v', verbosity) else ""
  }

  /** A lower positive verbosity yields a prefix of a higher one. */
  lemma VerbosityPrefix(m: int, n: int)
    requires 0 < m <= n
    ensures AnsibleVerbosityString(m) == AnsibleVerbosityString(n)[..m + 1]
  {
    Text.RepeatPrefix('v', m, n);
  }

  /** Distinct positive verbosities give distinct flags. */
  lemma VerbosityInjective(m: int, n: int)
    requires 0 < m && 0 < n && m != n
    ensures AnsibleVerbosityString(m) != AnsibleVerbosityString(n)
  {
  }
}
