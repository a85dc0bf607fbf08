/**
 * The shape shared by the admin screens' `validateForm` functions: a fixed sequence
 * of checks, each with its message, where the first check that fails decides the
 * message and the empty string means the form is acceptable. The validators
 * themselves are written as the screens write them, with nested `if`s; this module
 * is the reference they are proved against.
 */
module FormChecks {

  /** A validation message: never empty, since "" means "no error". */
  type Message = m: string | m != "" witness "?"

  /** One check of a validator: whether it fails, and the message it then returns. */
  datatype Check = Check(fails: bool, message: Message)

  /** The message of the first failing check, or "" when none fails. */
  function FirstFailure(cs: seq<Check>): (m: string)
    ensures m == "" <==> forall k :: 0 <= k < |cs| ==> !cs[k].fails
  {
    if cs == [] then ""
    else if cs[0].fails then cs[0].message
    else FirstFailure(cs[1..])
  }

  /** A non-empty result is the message of a failing check before which every check
    * passed. */
  lemma {:induction false} FirstFailureIsFirst(cs: seq<Check>)
    ensures var m := FirstFailure(cs);
      m != "" ==> exists k :: 0 <= k < |cs| && cs[k].fails && cs[k].message == m &&
                               (forall j :: 0 <= j < k ==> !cs[j].fails)
  {
    if cs != [] && !cs[0].fails {
      var m := FirstFailure(cs[1..]);
      FirstFailureIsFirst(cs[1..]);
      if m != "" {
        var k :| 0 <= k < |cs[1..]| && cs[1..][k].fails && cs[1..][k].message == m &&
                 (forall j :: 0 <= j < k ==> !cs[1..][j].fails);
        assert cs[k + 1] == cs[1..][k];
        assert forall j :: 1 <= j < k + 1 ==> cs[j] == cs[1..][j - 1];
      }
    }
  }

  /** The first check decides when it fails and hands over to the rest otherwise. */
  lemma FirstFailureCons(c: Check, cs: seq<Check>)
    ensures FirstFailure([c] + cs) == if c.fails then c.message else FirstFailure(cs)
  {
    assert ([c] + cs)[1..] == cs;
  }
}
