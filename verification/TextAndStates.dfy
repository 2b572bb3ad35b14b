/** What normalising and stripping do to a text, and which states a state is entered from. */
module TextAndStates {
  import opened Domain

  lemma WordsSkip(c: char, s: string)
    requires IsSpace(c)
    ensures Words([c] + s) == Words(s)
  {
    assert ([c] + s)[1..] == s;
  }

  lemma WordsFirst(s: string)
    requires s != "" && !IsSpace(s[0])
    ensures Words(s) == [FirstWord(s)] + Words(s[|FirstWord(s)|..])
  {
  }

  lemma WordAhead(a: string, tail: string)
    requires a != "" && !IsSpace(a[0]) && tail != "" && IsSpace(tail[0])
    ensures Words(a + tail) == [FirstWord(a)] + Words(a[|FirstWord(a)|..] + tail)
  {
    hide Words, IsSpace;
    var w := FirstWord(a);
    FirstIsWord(a);
    assert a + tail == w + (a[|w|..] + tail);
    WordsStep(w, a[|w|..] + tail);
  }

  /** Words are what lies between white space. */
  lemma {:induction false} WordsSplit(a: string, sep: char, b: string)
    requires IsSpace(sep)
    ensures Words(a + ([sep] + b)) == Words(a) + Words(b)
    decreases |a|
  {
    hide Words, IsSpace, FirstWord;
    var tail := [sep] + b;
    if a == "" {
      WordsSkip(sep, b);
      assert a + tail == tail;
      assert Words("") == [] && [] + Words(b) == Words(b);
    } else if IsSpace(a[0]) {
      WordsSplit(a[1..], sep, b);
      assert a == [a[0]] + a[1..] && a + tail == [a[0]] + (a[1..] + tail);
      WordsSkip(a[0], a[1..]);
      WordsSkip(a[0], a[1..] + tail);
    } else {
      var w := FirstWord(a);
      FirstIsWord(a);
      WordAhead(a, tail);
      WordsFirst(a);
      WordsSplit(a[|w|..], sep, b);
    }
  }

  lemma FirstIsWord(a: string)
    requires a != "" && !IsSpace(a[0])
    ensures IsWord(FirstWord(a))
  {
  }

  lemma OneWord(w: string)
    requires IsWord(w)
    ensures Words(w) == [w] && Words("") == []
  {
    WordsStep(w, "");
    assert w + "" == w;
  }

  /** White space occurs only as one blank between two other characters. */
  ghost predicate Spaced(s: string) {
    forall i :: 0 <= i < |s| && IsSpace(s[i]) ==>
      s[i] == ' ' && 0 < i < |s| - 1 && !IsSpace(s[i - 1]) && !IsSpace(s[i + 1])
  }

  lemma {:induction false} JoinSpaced(ws: seq<string>)
    requires forall i :: 0 <= i < |ws| ==> IsWord(ws[i])
    ensures Spaced(Join(ws)) && (ws != [] ==> Join(ws) != "" && !IsSpace(Join(ws)[0]))
    decreases |ws|
  {
    if |ws| > 1 {
      JoinSpaced(ws[1..]);
      var w, rest := ws[0], Join(ws[1..]);
      var s := w + " " + rest;
      assert Join(ws) == s && !IsSpace(s[0]);
      assert forall k :: 0 <= k < |w| ==> s[k] == w[k] && !IsSpace(s[k]);
      forall i | 0 <= i < |s| && IsSpace(s[i])
        ensures s[i] == ' ' && 0 < i < |s| - 1 && !IsSpace(s[i - 1]) && !IsSpace(s[i + 1])
      {
        if i == |w| {
          assert s[i - 1] == w[i - 1] && s[i + 1] == rest[0];
        } else {
          var j := i - |w| - 1;
          assert s[i] == rest[j];
          assert s[i - 1] == rest[j - 1] && s[i + 1] == rest[j + 1];
        }
      }
    }
  }

  /** Normalising keeps the words and leaves one blank between them and no other white space. */
  lemma NormaliseMeans(s: string)
    ensures Words(Normalise(s)) == Words(s) && Spaced(Normalise(s))
  {
    WordsOfJoin(Words(s));
    JoinSpaced(Words(s));
  }

  /** Stripping takes white space off both ends and stops at the first other character. */
  lemma StripMeans(s: string)
    ensures exists left, right :: Blank(left) && Blank(right) && s == left + Strip(s) + right
    ensures Strip(s) != "" ==> !IsSpace(Strip(s)[0]) && !IsSpace(Strip(s)[|Strip(s)| - 1])
  {
    var left := TakenLeft(s);
    var right := TakenRight(TrimLeft(s));
    assert s == left + TrimLeft(s);
    assert TrimLeft(s) == Strip(s) + right;
    assert s == left + Strip(s) + right;
    assert Strip(s) != "" ==> Strip(s)[0] == TrimLeft(s)[0];
  }

  lemma {:induction false} TakenLeft(s: string) returns (left: string)
    ensures Blank(left) && s == left + TrimLeft(s)
    ensures TrimLeft(s) != "" ==> !IsSpace(TrimLeft(s)[0])
  {
    left := "";
    if s != "" && IsSpace(s[0]) {
      var more := TakenLeft(s[1..]);
      left := [s[0]] + more;
      assert s == [s[0]] + s[1..];
    }
  }

  lemma {:induction false} TakenRight(s: string) returns (right: string)
    ensures Blank(right) && s == TrimRight(s) + right
    ensures TrimRight(s) != "" ==> !IsSpace(TrimRight(s)[|TrimRight(s)| - 1])
    decreases |s|
  {
    hide IsSpace;
    right := "";
    if s != "" && IsSpace(s[|s| - 1]) {
      var n := |s| - 1;
      var more := TakenRight(s[..n]);
      right := more + [s[n]];
      assert s == s[..n] + [s[n]];
      assert s == TrimRight(s) + right;
    } else {
      assert s == TrimRight(s) + right;
    }
  }

  /** Where each state can be entered from; nothing becomes a candidate. */
  lemma EnteredFrom(a: MemoryState)
    ensures !Edge(a, Candidate)
    ensures Edge(a, Confirmed) <==> a in {Candidate, Pinned, Stale, Contradicted, Archived}
    ensures Edge(a, Pinned) <==> a in {Candidate, Confirmed, Stale}
    ensures Edge(a, Stale) <==> a in {Confirmed, Pinned}
    ensures Edge(a, Active) <==> a in {Confirmed, Pinned, Contradicted, Archived}
    ensures Edge(a, Superseded) <==> a in {Confirmed, Pinned, Active}
    ensures Edge(a, Contradicted) <==> a in {Confirmed, Pinned, Active}
    ensures Edge(a, Archived) <==> a in {Confirmed, Pinned, Active}
  {
  }
}
