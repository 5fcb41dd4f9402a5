/** Printing the items of a list after an opening parenthesis that the
    caller has already written: the items separated by ", ", then ")". */
module SliceDisplay {

  /** The items in order, separated by ", ". */
  function Join(items: seq<string>): string
  {
    if |items| == 0 then ""
    else if |items| == 1 then items[0]
    else Join(items[..|items| - 1]) + ", " + items[|items| - 1]
  }

  /** What the printer writes for a list of rendered items. */
  function SliceText(items: seq<string>): string
  {
    Join(items) + ")"
  }

  /** The printing loop: before every item but the first it writes ", ",
      then the item; at the end it writes ")". */
  method StructuredSlicePrint(items: seq<string>) returns (written: string)
    ensures written == SliceText(items)
  {
    written := "";
    for i := 0 to |items|
      invariant written == Join(items[..i])
    {
      if i != 0 {
        written := written + ", ";
      }
      written := written + items[i];
      assert items[..i + 1][..i] == items[..i];
    }
    assert items[..|items|] == items;
    written := written + ")";
  }

  lemma SliceTextOfEmpty()
    ensures SliceText([]) == ")"
  {
  }

  /** Joining two nonempty lists puts exactly one separator between them. */
  lemma {:induction false} JoinAppend(a: seq<string>, b: seq<string>)
    requires |a| > 0 && |b| > 0
    ensures Join(a + b) == Join(a) + ", " + Join(b)
  {
    if |b| == 1 {
      assert (a + b)[..|a + b| - 1] == a;
    } else {
      var b' := b[..|b| - 1];
      JoinAppend(a, b');
      assert (a + b)[..|a + b| - 1] == a + b';
      assert (a + b)[|a + b| - 1] == b[|b| - 1];
    }
  }

  /** `Join` read from the front: the first item, and ", " before each later one. */
  lemma {:induction false} JoinCons(x: string, rest: seq<string>)
    ensures Join([x] + rest) == if |rest| == 0 then x else x + ", " + Join(rest)
  {
    if |rest| > 0 {
      JoinAppend([x], rest);
    } else {
      assert [x] + rest == [x];
    }
  }

  /** Item `i > 0` is preceded by ", " and followed by the rest of the list. */
  lemma {:induction false} JoinAt(items: seq<string>, i: nat)
    requires 0 < i < |items|
    ensures Join(items) == Join(items[..i]) + ", " + items[i] +
                           (if i + 1 < |items| then ", " + Join(items[i + 1..]) else "")
  {
    var front, back := items[..i], items[i..];
    assert items == front + back;
    JoinAppend(front, back);
    assert back == [items[i]] + items[i + 1..];
    JoinCons(items[i], items[i + 1..]);
    if i + 1 < |items| {
      assert Join(back) == items[i] + ", " + Join(items[i + 1..]);
    } else {
      assert Join(back) == items[i];
    }
  }

  /** The printer writes no opening parenthesis of its own, and ends with one
      closing parenthesis. */
  lemma {:induction false} SliceTextParens(items: seq<string>)
    requires forall i :: 0 <= i < |items| ==> '(' !in items[i]
    ensures '(' !in SliceText(items)
    ensures SliceText(items)[|SliceText(items)| - 1] == ')'
  {
    JoinNoOpen(items);
  }

  lemma {:induction false} JoinNoOpen(items: seq<string>)
    requires forall i :: 0 <= i < |items| ==> '(' !in items[i]
    ensures '(' !in Join(items)
  {
    if |items| > 1 {
      JoinNoOpen(items[..|items| - 1]);
      assert '(' !in items[|items| - 1];
    }
  }

  /** As many opening as closing parentheses. */
  predicate Balanced(s: string)
  {
    multiset(s)['('] == multiset(s)[')']
  }

  /** Joining balanced items gives a balanced text: the separator adds no
      parenthesis. */
  lemma {:induction false} JoinBalanced(items: seq<string>)
    requires forall i :: 0 <= i < |items| ==> Balanced(items[i])
    ensures Balanced(Join(items))
  {
    if |items| > 1 {
      JoinBalanced(items[..|items| - 1]);
      assert Balanced(items[|items| - 1]);
      assert Join(items) == Join(items[..|items| - 1]) + ", " + items[|items| - 1];
    } else if |items| == 1 {
      assert Balanced(items[0]);
    }
  }
}
