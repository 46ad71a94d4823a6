/** Path decoding.

    A USSD request carries every choice the user made since the session
    started, as one string in which the choices are separated by '*'.
    The handler splits that string into step tokens; the empty string means
    "the session has just started" and gives no tokens at all. */
module Steps {

  const Delimiter: char := '*'

  /** A step token never contains the delimiter. */
  predicate IsToken(t: string)
  {
    Delimiter !in t
  }

  predicate AllTokens(ts: seq<string>)
  {
    forall i :: 0 <= i < |ts| ==> IsToken(ts[i])
  }

  /** The tokens joined back with the delimiter between them. */
  function Join(ts: seq<string>): string
  {
    if |ts| == 0 then ""
    else if |ts| == 1 then ts[0]
    else ts[0] + [Delimiter] + Join(ts[1..])
  }

  /** Splitting on every delimiter: there is always one piece more than there
      are delimiters, and empty pieces (from "1**x" or a leading or trailing
      '*') are kept. */
  function Split(s: string): (pieces: seq<string>)
    ensures |pieces| == multiset(s)[Delimiter] + 1
    ensures AllTokens(pieces)
  {
    if |s| == 0 then [""]
    else
      assert s == [s[0]] + s[1..];
      var rest := Split(s[1..]);
      if s[0] == Delimiter then [""] + rest
      else [[s[0]] + rest[0]] + rest[1..]
  }

  /** The step sequence of a request's text: none for the empty text,
      otherwise the pieces between the delimiters. */
  function Decode(text: string): (steps: seq<string>)
    ensures steps == [] <==> text == ""
    ensures text != "" ==> |steps| == multiset(text)[Delimiter] + 1
    ensures AllTokens(steps)
  {
    if text == "" then [] else Split(text)
  }

  /** Splitting loses nothing: the pieces joined back give the text. */
  lemma {:induction false} JoinSplit(s: string)
    ensures Join(Split(s)) == s
  {
    if |s| > 0 {
      assert s == [s[0]] + s[1..];
      JoinSplit(s[1..]);
      var rest := Split(s[1..]);
      if s[0] != Delimiter && |rest| > 1 {
        var pieces := [[s[0]] + rest[0]] + rest[1..];
        assert pieces[1..] == rest[1..];
      }
    }
  }

  /** A delimiter-free prefix only extends the first piece. */
  lemma {:induction false} SplitTokenPrefix(a: string, b: string)
    requires IsToken(a)
    ensures Split(a + b) == [a + Split(b)[0]] + Split(b)[1..]
  {
    if |a| > 0 {
      assert a + b == [a[0]] + (a[1..] + b);
      assert (a + b)[1..] == a[1..] + b;
      SplitTokenPrefix(a[1..], b);
      assert [a[0]] + (a[1..] + Split(b)[0]) == a + Split(b)[0];
    } else {
      var pieces := Split(b);
      assert a + b == b;
      assert a + pieces[0] == pieces[0];
      assert pieces == [pieces[0]] + pieces[1..];
    }
  }

  /** Joining tokens and splitting again gives the same tokens back. */
  lemma {:induction false} SplitJoin(ts: seq<string>)
    requires |ts| >= 1 && AllTokens(ts)
    ensures Split(Join(ts)) == ts
  {
    if |ts| == 1 {
      SplitTokenPrefix(ts[0], "");
      assert ts[0] + "" == ts[0];
    } else {
      var tail := Join(ts[1..]);
      SplitJoin(ts[1..]);
      assert ts[0] + [Delimiter] + tail == ts[0] + ([Delimiter] + tail);
      SplitTokenPrefix(ts[0], [Delimiter] + tail);
      assert ([Delimiter] + tail)[1..] == tail;
      assert ts[0] + "" == ts[0];
      assert ts == [ts[0]] + ts[1..];
    }
  }

  /** Decoding loses nothing: the steps joined back give the request text. */
  lemma JoinDecode(text: string)
    ensures Join(Decode(text)) == text
  {
    if text != "" {
      JoinSplit(text);
    }
  }

  /** Every non-empty step sequence other than a single empty step is the
      decoding of exactly one text, its join. */
  lemma DecodeJoin(ts: seq<string>)
    requires |ts| >= 1 && AllTokens(ts) && ts != [""]
    ensures Decode(Join(ts)) == ts
  {
    SplitJoin(ts);
  }

  /** A text decodes to the single step s exactly when it is s itself. */
  lemma DecodeSingle(text: string, s: string)
    requires s != "" && IsToken(s)
    ensures Decode(text) == [s] <==> text == s
  {
    if text == s {
      DecodeJoin([s]);
    }
    if Decode(text) == [s] {
      JoinDecode(text);
    }
  }

  /** Consecutive delimiters keep an empty step between them. */
  lemma EmptyStepKept()
    ensures Decode("1**x") == ["1", "", "x"]
  {
    var ts := ["1", "", "x"];
    assert Join(ts[2..]) == "x";
    assert Join(ts[1..]) == "" + "*" + "x";
    assert Join(ts) == "1**x";
    assert IsToken(ts[0]) && IsToken(ts[1]) && IsToken(ts[2]);
    DecodeJoin(ts);
  }
}
