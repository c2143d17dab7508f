/**
  What a sequence of written lines looks like as console text, and what it
  means for that text to contain a fragment.

  Each WriteLine call ends its line with a newline; the newline is taken to
  be the single character '\n'.
 */
module ConsoleText {

  /** The console text produced by writing `lines` one after another. */
  function Output(lines: seq<string>): (t: string)
    ensures lines != [] ==> lines[0] + "\n" <= t
  {
    if lines == [] then "" else lines[0] + "\n" + Output(lines[1..])
  }

  /** `p` occurs somewhere in `t` as a contiguous piece. */
  predicate Occurs(p: string, t: string)
    ensures Occurs(p, t) ==> |p| <= |t|
    ensures p <= t ==> Occurs(p, t)
  {
    assert t[0..] == t;
    exists k :: 0 <= k <= |t| && p <= t[k..]
  }

  /** Every written line can be found in the console text. */
  lemma {:induction false} LineOccursInOutput(lines: seq<string>, i: nat)
    requires i < |lines|
    ensures Occurs(lines[i], Output(lines))
  {
    var t := Output(lines);
    if i == 0 {
      assert lines[0] <= t[0..];
    } else {
      var rest := lines[1..];
      assert rest[i - 1] == lines[i];
      LineOccursInOutput(rest, i - 1);
      var k :| 0 <= k <= |Output(rest)| && lines[i] <= Output(rest)[k..];
      var off := |lines[0]| + 1;
      assert t == (lines[0] + "\n") + Output(rest);
      assert t[off + k..] == Output(rest)[k..];
      assert lines[i] <= t[off + k..];
    }
  }
}
