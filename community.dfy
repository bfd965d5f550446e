/** The community page: a fixed list of shared study sets, narrowed by a search box that
    matches the title or the author without regard to (ASCII) case. */
module Community {
  import opened Wrappers
  import opened Text
  import StudySession

  /** A shared set as the page lists it (its icon left aside). */
  datatype SharedSet = SharedSet(id: string, title: string, author: string, kind: string, cards: int, likes: int)

  /** The sets the page shows. */
  const MockSets: seq<SharedSet> := [
    SharedSet("1", "Biologia - Cellula", "Marco R.", "flashcards", 25, 42),
    SharedSet("2", "Storia Romana", "Giulia P.", "quiz_multiple", 15, 38),
    SharedSet("3", "Matematica - Derivate", "Luca S.", "flashcards", 30, 67),
    SharedSet("4", "Inglese B2 Vocabulary", "Sara M.", "quiz_open", 20, 55),
    SharedSet("5", "Chimica Organica", "Andrea B.", "flashcards", 18, 31),
    SharedSet("6", "Filosofia Moderna", "Elena C.", "quiz_multiple", 12, 28)
  ]

  /** The label shown for each type of set. */
  const TypeLabels: map<string, string> := map[
    "flashcards" := "Flashcard",
    "quiz_multiple" := "Quiz Multiplo",
    "quiz_open" := "Quiz Aperto"
  ]

  /** `typeLabels[kind]`, absent for an unknown type. */
  function LabelOf(kind: string): (l: Option<string>)
    ensures l.Some? <==> kind in {"flashcards", "quiz_multiple", "quiz_open"}
  {
    if kind in TypeLabels then Some(TypeLabels[kind]) else None
  }

  /** Every listed set has a label, and each of the three types is labelled as the study page
      labels it. */
  lemma LabelsCoverSets()
    ensures forall k :: 0 <= k < |MockSets| ==> LabelOf(MockSets[k].kind).Some?
    ensures forall kind :: kind in TypeLabels ==> TypeLabels[kind] == StudySession.KindBadge(kind)
  {
  }

  /** A set is kept when its lowered title or author contains the lowered search text. */
  predicate Matches(s: SharedSet, search: string) {
    Includes(Lower(s.title), Lower(search)) || Includes(Lower(s.author), Lower(search))
  }

  /** `a` is `b` with some elements left out, the rest in their order. */
  predicate IsSubsequence<T(==)>(a: seq<T>, b: seq<T>)
    decreases |b|
  {
    if a == [] then true
    else if b == [] then false
    else if a[0] == b[0] then IsSubsequence(a[1..], b[1..])
    else IsSubsequence(a, b[1..])
  }

  /** `mockSets.filter(...)`: the matching sets, in their order. */
  function Filter(sets: seq<SharedSet>, search: string): (r: seq<SharedSet>)
    ensures IsSubsequence(r, sets)
    ensures forall x :: x in r <==> x in sets && Matches(x, search)
    ensures |r| <= |sets|
    decreases |sets|
  {
    if sets == [] then []
    else if Matches(sets[0], search) then [sets[0]] + Filter(sets[1..], search)
    else
      var rest := Filter(sets[1..], search);
      SubsequenceSkip(rest, sets[0], sets[1..]);
      rest
  }

  /** An element may be put in front of the longer sequence. */
  lemma {:induction false} SubsequenceSkip<T>(a: seq<T>, x: T, b: seq<T>)
    requires IsSubsequence(a, b)
    ensures IsSubsequence(a, [x] + b)
    decreases |b|, 1
  {
    if a != [] && a[0] == x {
      assert ([x] + b)[1..] == b;
      SubsequenceDrop(a, b);
    } else if a != [] {
      assert ([x] + b)[1..] == b;
    }
  }

  /** Dropping the first element keeps a subsequence a subsequence. */
  lemma {:induction false} SubsequenceDrop<T>(a: seq<T>, b: seq<T>)
    requires a != [] && IsSubsequence(a, b)
    ensures IsSubsequence(a[1..], b)
    decreases |b|, 0
  {
    if a[0] == b[0] {
      SubsequenceSkip(a[1..], b[0], b[1..]);
      assert [b[0]] + b[1..] == b;
    } else {
      SubsequenceDrop(a, b[1..]);
      SubsequenceSkip(a[1..], b[0], b[1..]);
      assert [b[0]] + b[1..] == b;
    }
  }

  /** The empty search keeps every set. */
  lemma {:induction false} EmptySearchKeepsAll(sets: seq<SharedSet>)
    ensures Filter(sets, "") == sets
    decreases |sets|
  {
    if sets != [] {
      IncludesEmpty(Lower(sets[0].title));
      assert Lower("") == "";
      EmptySearchKeepsAll(sets[1..]);
    }
  }

  /** Two searches with the same lowering select the same sets. */
  lemma {:induction false} SameLoweringSameResult(sets: seq<SharedSet>, s1: string, s2: string)
    requires Lower(s1) == Lower(s2)
    ensures Filter(sets, s1) == Filter(sets, s2)
    decreases |sets|
  {
    if sets != [] {
      SameLoweringSameResult(sets[1..], s1, s2);
    }
  }

  /** The search ignores ASCII case: lowering it does not change the result. */
  lemma CaseInsensitive(sets: seq<SharedSet>, search: string)
    ensures Filter(sets, Lower(search)) == Filter(sets, search)
  {
    LowerIdempotent(search);
    SameLoweringSameResult(sets, Lower(search), search);
  }

  /** A set matching a search also matches every part of it. */
  lemma MatchesPart(x: SharedSet, s: string, s2: string)
    requires Includes(s2, s) && Matches(x, s2)
    ensures Matches(x, s)
  {
    IncludesLower(s2, s);
    if Includes(Lower(x.title), Lower(s2)) {
      IncludesTransitive(Lower(x.title), Lower(s2), Lower(s));
    } else {
      IncludesTransitive(Lower(x.author), Lower(s2), Lower(s));
    }
  }

  /** Typing more narrows the result: when `s` occurs in `s2`, the sets found for `s2` are among
      those found for `s`, in the same order. */
  lemma {:induction false} LongerSearchNarrows(sets: seq<SharedSet>, s: string, s2: string)
    requires Includes(s2, s)
    ensures IsSubsequence(Filter(sets, s2), Filter(sets, s))
    ensures forall x :: x in Filter(sets, s2) ==> x in Filter(sets, s)
    decreases |sets|
  {
    if sets != [] {
      LongerSearchNarrows(sets[1..], s, s2);
      var a := Filter(sets[1..], s2);
      var b := Filter(sets[1..], s);
      if Matches(sets[0], s2) {
        MatchesPart(sets[0], s, s2);
        assert Filter(sets, s2) == [sets[0]] + a && Filter(sets, s) == [sets[0]] + b;
        assert ([sets[0]] + a)[1..] == a && ([sets[0]] + b)[1..] == b;
      } else if Matches(sets[0], s) {
        SubsequenceSkip(a, sets[0], b);
      }
    }
  }

  /** Filtering the result again with the same search changes nothing. */
  lemma {:induction false} FilterIdempotent(sets: seq<SharedSet>, search: string)
    ensures Filter(Filter(sets, search), search) == Filter(sets, search)
    decreases |sets|
  {
    if sets != [] {
      FilterIdempotent(sets[1..], search);
      if Matches(sets[0], search) {
        var r := [sets[0]] + Filter(sets[1..], search);
        assert r[0] == sets[0] && r[1..] == Filter(sets[1..], search);
      }
    }
  }
}
