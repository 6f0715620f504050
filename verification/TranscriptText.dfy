// The text rules of the live transcripts (backend/app/services/realtime_transcripts.py):
// which provider identities are accepted and how a transcript is normalised.
module TranscriptText {
  import opened Wrappers

  const MAX_TRANSCRIPT := 8000

  predicate IdentityChar(c: char) {
    'A' <= c <= 'Z' || 'a' <= c <= 'z' || '0' <= c <= '9' || c == '_' || c == '-'
  }

  /** item_identity: 1 to 128 characters of [A-Za-z0-9_-]. */
  predicate ValidIdentity(id: string) {
    1 <= |id| <= 128 && forall i :: 0 <= i < |id| ==> IdentityChar(id[i])
  }

  /** Python's str.isspace for one code point. */
  predicate IsSpace(c: char) {
    var n := c as int;
    || 0x09 <= n <= 0x0d || 0x1c <= n <= 0x20 || n == 0x85 || n == 0xa0 || n == 0x1680
    || 0x2000 <= n <= 0x200a || n == 0x2028 || n == 0x2029 || n == 0x202f || n == 0x205f || n == 0x3000
  }

  predicate Control(c: char) {
    c as int < 32 && !IsSpace(c)
  }

  predicate HasControl(s: string) {
    exists i :: 0 <= i < |s| && Control(s[i])
  }

  predicate Word(w: string) {
    w != [] && forall i :: 0 <= i < |w| ==> !IsSpace(w[i])
  }

  predicate AllWords(ws: seq<string>) {
    forall i :: 0 <= i < |ws| ==> Word(ws[i])
  }

  /** str.split(): the maximal runs of non-space characters, in order. */
  function Words(s: string): (ws: seq<string>)
    ensures AllWords(ws)
    ensures s != [] && !IsSpace(s[0]) ==> ws != []
  {
    if s == [] then []
    else
      var rest := Words(s[1..]);
      if IsSpace(s[0]) then rest
      else if |s| > 1 && !IsSpace(s[1]) then [[s[0]] + rest[0]] + rest[1..]
      else [[s[0]]] + rest
  }

  /** " ".join(ws) */
  function Join(ws: seq<string>): string {
    if |ws| == 0 then []
    else if |ws| == 1 then ws[0]
    else ws[0] + [' '] + Join(ws[1..])
  }

  /** normalize; None stands for the realtime_transcript_invalid error. */
  function Normalize(s: string): Option<string> {
    if |s| > MAX_TRANSCRIPT || HasControl(s) then None else Some(Join(Words(s)))
  }

  predicate Normalized(s: string) {
    Normalize(s) == Some(s)
  }

  // ---- splitting undoes joining ----

  lemma {:induction false} WordsOfJoin(ws: seq<string>)
    requires AllWords(ws)
    ensures Words(Join(ws)) == ws
    decreases |ws|, |Join(ws)|
  {
    assert IsSpace(' ');
    hide IsSpace;
    if |ws| > 0 {
      var w, more := ws[0], ws[1..];
      var s := Join(ws);
      assert ws == [w] + more;
      if |w| > 1 {
        var shorter := [w[1..]] + more;
        assert shorter[1..] == more;
        assert s[1..] == Join(shorter);
        WordsOfJoin(shorter);
        assert [w[0]] + w[1..] == w;
      } else if |more| > 0 {
        WordsOfJoin(more);
        assert s[1..] == [' '] + Join(more);
        assert s[2..] == Join(more) == s[1..][1..];
        assert w == [w[0]];
      } else {
        assert s == w == [w[0]];
        assert s[1..] == [];
      }
    }
  }

  /** Splitting is at white space, anywhere and in any amount, and nowhere else: with WordIsItself and no words in the empty
      text these are the only words a text can have. */
  lemma {:induction false} WordsSplitAtSpace(a: string, c: char, b: string)
    requires IsSpace(c)
    ensures Words(a + [c] + b) == Words(a) + Words(b)
    decreases |a|
  {
    hide IsSpace;
    var s := a + [c] + b;
    if a == [] {
      assert s[1..] == b;
    } else {
      assert s[1..] == a[1..] + [c] + b;
      WordsSplitAtSpace(a[1..], c, b);
      assert |a| > 1 ==> s[1] == a[1];
      assert |a| == 1 ==> s[1] == c && a[1..] == [];
    }
  }

  lemma {:induction false} WordIsItself(w: string)
    requires Word(w)
    ensures Words(w) == [w]
    decreases |w|
  {
    hide IsSpace;
    if |w| > 1 {
      WordIsItself(w[1..]);
      assert [w[0]] + w[1..] == w;
    } else {
      assert w == [w[0]] && w[1..] == [];
    }
  }

  lemma {:induction false} JoinAppend(a: seq<string>, b: seq<string>)
    requires a != [] && b != []
    ensures Join(a + b) == Join(a) + [' '] + Join(b)
    decreases |a|
  {
    if |a| == 1 {
      assert (a + b)[1..] == b;
    } else {
      JoinAppend(a[1..], b);
      assert (a + b)[1..] == a[1..] + b;
    }
  }

  // ---- normalising never lengthens and never adds a control character ----

  lemma {:induction false} JoinCons(c: char, ws: seq<string>)
    requires ws != []
    ensures Join([[c] + ws[0]] + ws[1..]) == [c] + Join(ws)
  {
    assert ([[c] + ws[0]] + ws[1..])[1..] == ws[1..];
  }

  lemma {:induction false} JoinWordsShorter(s: string)
    ensures |Join(Words(s))| <= |s|
    ensures s != [] && IsSpace(s[0]) ==> |Join(Words(s))| < |s|
  {
    if s != [] {
      JoinWordsShorter(s[1..]);
      var rest := Words(s[1..]);
      if !IsSpace(s[0]) {
        if |s| > 1 && !IsSpace(s[1]) {
          JoinCons(s[0], rest);
        } else if rest != [] {
          assert ([[s[0]]] + rest)[1..] == rest;
        }
      }
    }
  }

  lemma {:induction false} JoinWordsControl(s: string)
    requires !HasControl(s)
    ensures !HasControl(Join(Words(s)))
  {
    if s != [] {
      var tail := s[1..];
      assert !HasControl(tail) by {
        forall i | 0 <= i < |tail| ensures !Control(tail[i]) { assert tail[i] == s[i + 1]; }
      }
      JoinWordsControl(tail);
      var rest := Words(tail);
      assert !Control(s[0]);
      if !IsSpace(s[0]) {
        if |s| > 1 && !IsSpace(s[1]) {
          JoinCons(s[0], rest);
        } else if rest != [] {
          assert ([[s[0]]] + rest)[1..] == rest;
          assert Join([[s[0]]] + rest) == [s[0], ' '] + Join(rest);
        }
      }
    }
  }

  /** What normalize returns is a fixed point of normalize. */
  lemma NormalizeIsIdempotent(s: string)
    requires Normalize(s).Some?
    ensures Normalized(Normalize(s).value)
  {
    JoinWordsShorter(s);
    JoinWordsControl(s);
    WordsOfJoin(Words(s));
  }

  // ---- joining normalised texts ----

  lemma NormalizedIsJoin(s: string)
    requires Normalized(s) && s != []
    ensures s == Join(Words(s)) && Words(s) != [] && AllWords(Words(s)) && !HasControl(s)
  {
  }

  lemma NoControlAppend(a: string, b: string)
    requires !HasControl(a) && !HasControl(b)
    ensures !HasControl(a + [' '] + b)
  {
    var s := a + [' '] + b;
    forall i | 0 <= i < |s| ensures !Control(s[i]) {
      if i < |a| { assert s[i] == a[i]; } else if i > |a| { assert s[i] == b[i - |a| - 1]; }
    }
  }

  /** The words of several normalised texts, in order, make up the words of their join. */
  lemma {:induction false} JoinOfNormalized(ts: seq<string>) returns (ws: seq<string>)
    requires ts != []
    requires forall i :: 0 <= i < |ts| ==> Normalized(ts[i]) && ts[i] != []
    ensures ws != [] && AllWords(ws) && Join(ts) == Join(ws) && !HasControl(Join(ts))
    decreases |ts|
  {
    NormalizedIsJoin(ts[0]);
    if |ts| == 1 {
      ws := Words(ts[0]);
    } else {
      var more := JoinOfNormalized(ts[1..]);
      JoinAppend(Words(ts[0]), more);
      ws := Words(ts[0]) + more;
      NoControlAppend(ts[0], Join(ts[1..]));
    }
  }

  /** " ".join of non-empty normalised texts is again normalised while it stays within the cap. */
  lemma JoinStaysNormalized(ts: seq<string>)
    requires ts != []
    requires forall i :: 0 <= i < |ts| ==> Normalized(ts[i]) && ts[i] != []
    requires |Join(ts)| <= MAX_TRANSCRIPT
    ensures Normalized(Join(ts))
  {
    var ws := JoinOfNormalized(ts);
    WordsOfJoin(ws);
  }
}
