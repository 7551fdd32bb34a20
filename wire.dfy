/**
 * The request encoding between the frame loop and the chat worker: the sender
 * builds `format!("{}\0{}", message, model)` and the worker takes it apart with
 * `split_once('\0')`.
 */
module Wire {
  import opened Wrappers

  const Separator: char := '\0'

  /** `format!("{}\0{}", message, model)`. */
  function Encode(message: string, model: string): (r: string)
    ensures |r| == |message| + 1 + |model|
    ensures r[..|message|] == message && r[|message|] == Separator && r[|message| + 1..] == model
  {
    message + [Separator] + model
  }

  /** The position of the first `c` in `s`, if any. */
  function Find(s: string, c: char): (r: Option<nat>)
    ensures r.None? <==> c !in s
    ensures r.Some? ==> r.value < |s| && s[r.value] == c && c !in s[..r.value]
  {
    if s == [] then None
    else if s[0] == c then Some(0)
    else
      match Find(s[1..], c)
      case None => None
      case Some(k) =>
        assert s[..k + 1] == [s[0]] + s[1..][..k];
        Some(k + 1)
  }

  /** `str::split_once(c)`: the text before and after the first `c`. */
  function SplitOnce(s: string, c: char): (r: Option<(string, string)>)
    ensures r.None? <==> c !in s
    ensures r.Some? ==> c !in r.value.0 && r.value.0 + [c] + r.value.1 == s
  {
    match Find(s, c)
    case None => None
    case Some(k) =>
      assert s == s[..k] + [c] + s[k + 1..];
      Some((s[..k], s[k + 1..]))
  }

  /** Two splits of one string at a character absent from both left parts are the same split. */
  lemma {:induction false} SplitUnique(a: string, b: string, x: string, y: string, c: char)
    requires c !in a && c !in x
    requires a + [c] + b == x + [c] + y
    ensures a == x && b == y
  {
    var s := a + [c] + b;
    assert |a| == |x| by {
      // The first c in s sits right after a, and right after x.
      assert s[|a|] == c && s[|x|] == c;
    }
    assert a == s[..|a|] == x;
    assert b == s[|a| + 1..] == y;
  }

  /**
   * The worker recovers exactly what the sender encoded, provided the message
   * holds no NUL; the model name may hold anything.
   */
  lemma EncodeSplitRoundTrip(message: string, model: string)
    requires Separator !in message
    ensures SplitOnce(Encode(message, model), Separator) == Some((message, model))
  {
    var r := SplitOnce(Encode(message, model), Separator);
    assert Separator in Encode(message, model) by {
      assert Encode(message, model)[|message|] == Separator;
    }
    SplitUnique(r.value.0, r.value.1, message, model, Separator);
  }

  /** A NUL typed into the message moves the split: the worker would see another message and model. */
  lemma MessageWithSeparatorMisroutes(head: string, tail: string, model: string)
    requires Separator !in head
    ensures SplitOnce(Encode(head + [Separator] + tail, model), Separator) ==
            Some((head, tail + [Separator] + model))
  {
    var s := Encode(head + [Separator] + tail, model);
    assert s == head + [Separator] + (tail + [Separator] + model);
    assert s[|head|] == Separator;
    var r := SplitOnce(s, Separator);
    SplitUnique(r.value.0, r.value.1, head, tail + [Separator] + model, Separator);
  }
}
