/** Reading a finished command: the value that follows an option. */
module CriuOptions {
  import opened Outcomes

  /** The token after the first occurrence of `option`. */
  function ValueOf(command: seq<string>, option: string): Option<string> {
    if |command| < 2 then None
    else if command[0] == option then Some(command[1])
    else ValueOf(command[1..], option)
  }

  lemma {:induction false} ValueAt(command: seq<string>, option: string, n: nat)
    requires n + 1 < |command| && command[n] == option && forall m :: 0 <= m < n ==> command[m] != option
    ensures ValueOf(command, option) == Some(command[n + 1])
  {
    if n > 0 {
      assert command[0] != option;
      ValueAt(command[1..], option, n - 1);
    }
  }

  /** A token that is no option: it starts with no dash, or with a dash and a digit. */
  predicate IsPlain(token: string) {
    token == "" || token[0] != '-' || (|token| > 1 && '0' <= token[1] <= '9')
  }

  predicate IsOptionName(option: string) {
    |option| > 1 && option[0] == '-' && !('0' <= option[1] <= '9')
  }

  /** Told apart by length or by the third letter. */
  predicate Differs(a: string, b: string) {
    |a| != |b| || (|a| > 2 && a[2] != b[2])
  }

  /** Plain tokens and other names are passed over. */
  lemma ValuePast(command: seq<string>, option: string, n: nat)
    requires IsOptionName(option) && n + 1 < |command| && command[n] == option
    requires forall m :: 0 <= m < n ==> IsPlain(command[m]) || Differs(command[m], option)
    ensures ValueOf(command, option) == Some(command[n + 1])
  {
    ValueAt(command, option, n);
  }
}
