/** Space-separated text, as print_rstack writes it. */
module Words {
  /** Words separated by single spaces, with no space before the first or
      after the last. */
  function JoinSpaces(ws: seq<string>): string
  {
    if ws == [] then ""
    else if |ws| == 1 then ws[0]
    else ws[0] + " " + JoinSpaces(ws[1..])
  }

  lemma {:induction false} JoinSpacesSnoc(ws: seq<string>, w: string)
    ensures JoinSpaces(ws + [w]) == if ws == [] then w else JoinSpaces(ws) + " " + w
  {
    if |ws| > 1 {
      assert (ws + [w])[1..] == ws[1..] + [w];
      JoinSpacesSnoc(ws[1..], w);
    } else if |ws| == 1 {
      assert (ws + [w])[1..] == [w];
    }
  }

  /** Joining two nonempty runs of words is joining each and putting one
      space between them. */
  lemma {:induction false} JoinSpacesAppend(a: seq<string>, b: seq<string>)
    requires a != [] && b != []
    ensures JoinSpaces(a + b) == JoinSpaces(a) + " " + JoinSpaces(b)
    decreases |a|
  {
    if |a| == 1 {
      assert (a + b)[1..] == b;
    } else {
      assert (a + b)[1..] == a[1..] + b;
      JoinSpacesAppend(a[1..], b);
    }
  }

  /** Splits a text at every space. */
  function SplitSpaces(s: string): (ws: seq<string>)
    ensures |ws| >= 1
    decreases |s|
  {
    if ' ' !in s then [s]
    else
      var i := FirstSpace(s);
      [s[..i]] + SplitSpaces(s[i + 1..])
  }

  function FirstSpace(s: string): (i: nat)
    requires ' ' in s
    ensures i < |s| && s[i] == ' ' && ' ' !in s[..i]
  {
    if s[0] == ' ' then 0
    else
      assert ' ' in s[1..] by { var k :| 0 <= k < |s| && s[k] == ' '; assert s[1..][k - 1] == ' '; }
      var j := FirstSpace(s[1..]);
      assert s[..j + 1] == [s[0]] + s[1..][..j];
      j + 1
  }

  /** A word that print_rstack's separator cannot be confused with. */
  predicate IsWord(w: string)
  {
    w != "" && ' ' !in w
  }

  lemma {:induction false} FirstSpaceAfterWord(w: string, r: string)
    requires ' ' !in w
    ensures ' ' in w + " " + r && FirstSpace(w + " " + r) == |w|
  {
    var s := w + " " + r;
    assert s[|w|] == ' ';
    if w != [] {
      assert s[1..] == w[1..] + " " + r;
      assert ' ' !in w[1..] by { assert forall k :: 0 <= k < |w[1..]| ==> w[1..][k] == w[k + 1]; }
      FirstSpaceAfterWord(w[1..], r);
    }
  }

  /** Splitting the printed text at spaces gives back the lexemes, so the
      separators are single spaces with none before the first lexeme or after
      the last. */
  lemma {:induction false} SplitJoinSpaces(ws: seq<string>)
    requires ws != []
    requires forall w :: w in ws ==> IsWord(w)
    ensures SplitSpaces(JoinSpaces(ws)) == ws
  {
    var w := ws[0];
    assert IsWord(w);
    if |ws| > 1 {
      var rest := JoinSpaces(ws[1..]);
      var s := w + " " + rest;
      assert JoinSpaces(ws) == s;
      FirstSpaceAfterWord(w, rest);
      var i := FirstSpace(s);
      assert s[..i] == w;
      assert s[i + 1..] == rest;
      assert SplitSpaces(s) == [w] + SplitSpaces(rest);
      SplitJoinSpaces(ws[1..]);
      assert ws == [w] + ws[1..];
    }
  }
}
