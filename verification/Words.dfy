/** Splitting a string at white space, and joining words with blanks. */
module Words {

  predicate IsSpace(c: char) {
    c == ' ' || c == '\t' || c == '\n' || c == '\r' || c == '\U{b}' || c == '\U{c}'
  }

  /** A word in progress, then the rest of the text. */
  function Scan(word: string, s: string): seq<string>
    decreases |s|
  {
    if s == [] then (if word == [] then [] else [word])
    else if !IsSpace(s[0]) then Scan(word + [s[0]], s[1..])
    else if word == [] then Scan([], s[1..])
    else [word] + Scan([], s[1..])
  }

  function Split(s: string): seq<string> {
    Scan([], s)
  }

  function Join(ws: seq<string>): string {
    if |ws| == 0 then ""
    else if |ws| == 1 then ws[0]
    else ws[0] + " " + Join(ws[1..])
  }

  ghost predicate IsWord(w: string) {
    w != [] && forall i :: 0 <= i < |w| ==> !IsSpace(w[i])
  }

  lemma {:induction false} ScanWord(word: string, w: string, rest: string)
    requires forall i :: 0 <= i < |w| ==> !IsSpace(w[i])
    ensures Scan(word, w + rest) == Scan(word + w, rest)
    decreases |w|
  {
    if w == [] {
      assert w + rest == rest && word + w == word;
    } else {
      ScanWord(word + [w[0]], w[1..], rest);
      assert (w + rest)[1..] == w[1..] + rest;
      assert word + [w[0]] + w[1..] == word + w;
    }
  }

  /** Joined words split into the same words. */
  lemma {:induction false} SplitOfJoin(ws: seq<string>)
    requires forall w :: w in ws ==> IsWord(w)
    ensures Split(Join(ws)) == ws
  {
    if |ws| == 1 {
      assert IsWord(ws[0]);
      ScanWord([], ws[0], []);
      assert ws[0] + [] == ws[0] && [] + ws[0] == ws[0];
    } else if |ws| > 1 {
      assert IsWord(ws[0]);
      var rest := " " + Join(ws[1..]);
      assert Join(ws) == ws[0] + rest;
      ScanWord([], ws[0], rest);
      assert [] + ws[0] == ws[0] && rest[1..] == Join(ws[1..]);
      SplitOfJoin(ws[1..]);
      assert ws == [ws[0]] + ws[1..];
    }
  }

  lemma {:induction false} ScanGivesWords(word: string, s: string)
    requires forall i :: 0 <= i < |word| ==> !IsSpace(word[i])
    ensures forall w :: w in Scan(word, s) ==> IsWord(w)
    decreases |s|
  {
    if s != [] {
      if !IsSpace(s[0]) {
        ScanGivesWords(word + [s[0]], s[1..]);
      } else {
        ScanGivesWords([], s[1..]);
      }
    }
  }

  /** Splitting yields words only. */
  lemma {:induction false} SplitGivesWords(s: string)
    ensures forall w :: w in Split(s) ==> IsWord(w)
  {
    ScanGivesWords([], s);
  }
}
