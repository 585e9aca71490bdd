/** The decision at the heart of a cycle: which services are new, and the text
    of the notification that announces them. */
module DiffNotifier {

  /** No item occurs twice. */
  ghost predicate Distinct(xs: seq<string>)
  {
    forall i, j :: 0 <= i < j < |xs| ==> xs[i] != xs[j]
  }

  /** The services of `services` that `recent` does not know, each once, in the
      order of their first occurrence in `services`. */
  function Added(services: seq<string>, recent: seq<string>): (added: seq<string>)
    ensures forall x :: x in added <==> x in services && x !in recent
    ensures Distinct(added)
    ensures |added| <= |services|
  {
    if services == [] then []
    else
      var rest := Added(services[..|services| - 1], recent);
      var x := services[|services| - 1];
      assert services == services[..|services| - 1] + [x];
      if x in recent || x in rest then rest else rest + [x]
  }

  /** Nothing is new exactly when every current service is already known. */
  lemma AddedEmptyIff(services: seq<string>, recent: seq<string>)
    ensures Added(services, recent) == [] <==> forall x :: x in services ==> x in recent
  {
    if Added(services, recent) != [] {
      var x := Added(services, recent)[0];
      assert x in services && x !in recent;
    }
  }

  /** Only the sets of current and known services matter: repeating, dropping a
      repetition or reordering them does not change which services are new. */
  lemma AddedIgnoresDuplicates(s1: seq<string>, r1: seq<string>, s2: seq<string>, r2: seq<string>)
    requires forall x :: x in s1 <==> x in s2
    requires forall x :: x in r1 <==> x in r2
    ensures forall x :: x in Added(s1, r1) <==> x in Added(s2, r2)
    ensures |Added(s1, r1)| == |Added(s2, r2)|
  {
    var a1, a2 := Added(s1, r1), Added(s2, r2);
    DistinctCardinality(a1);
    DistinctCardinality(a2);
    assert Elements(a1) == Elements(a2);
  }

  function Elements(xs: seq<string>): set<string>
  {
    set x | x in xs
  }

  lemma {:induction false} DistinctCardinality(xs: seq<string>)
    requires Distinct(xs)
    ensures |Elements(xs)| == |xs|
  {
    if xs != [] {
      var init := xs[..|xs| - 1];
      var x := xs[|xs| - 1];
      assert xs == init + [x];
      assert Distinct(init);
      DistinctCardinality(init);
      assert x !in init;
      assert Elements(xs) == Elements(init) + {x};
    }
  }

  /** `", ".join(xs)`: the items separated by `sep`. */
  function Join(xs: seq<string>, sep: string): string
  {
    if xs == [] then ""
    else if |xs| == 1 then xs[0]
    else xs[0] + sep + Join(xs[1..], sep)
  }

  const MessageMiddle: string := "リージョンに新たに *"
  const MessageEnd: string := "* がやってきた。"

  /** The text of the notification for `added` in the region named `display`. */
  function MessageText(display: string, added: seq<string>): string
  {
    display + MessageMiddle + Join(added, ", ") + MessageEnd
  }

  /** `word` stands in `text` starting at position `i`. */
  predicate OccursAt(text: string, word: string, i: nat)
  {
    i + |word| <= |text| && text[i..i + |word|] == word
  }

  ghost predicate Mentions(text: string, word: string)
  {
    exists i: nat :: OccursAt(text, word, i)
  }

  lemma OccursInLonger(a: string, text: string, b: string, word: string, i: nat)
    requires OccursAt(text, word, i)
    ensures OccursAt(a + text + b, word, |a| + i)
  {
    assert (a + text + b)[|a| + i..|a| + i + |word|] == text[i..i + |word|];
  }

  /** Every item appears in the joined text. */
  lemma {:induction false} JoinMentions(xs: seq<string>, sep: string, k: nat)
    requires k < |xs|
    ensures Mentions(Join(xs, sep), xs[k])
  {
    if |xs| == 1 {
      assert OccursAt(Join(xs, sep), xs[k], 0);
    } else if k == 0 {
      assert OccursAt(xs[0], xs[0], 0);
      OccursInLonger([], xs[0], sep + Join(xs[1..], sep), xs[0], 0);
      assert xs[0] + sep + Join(xs[1..], sep) == [] + xs[0] + (sep + Join(xs[1..], sep));
    } else {
      JoinMentions(xs[1..], sep, k - 1);
      var i: nat :| OccursAt(Join(xs[1..], sep), xs[k], i);
      OccursInLonger(xs[0] + sep, Join(xs[1..], sep), [], xs[k], i);
      assert xs[0] + sep + Join(xs[1..], sep) + [] == Join(xs, sep);
    }
  }

  /** The notification names the region and every new service. */
  lemma MessageMentions(display: string, added: seq<string>)
    ensures Mentions(MessageText(display, added), display)
    ensures forall x :: x in added ==> Mentions(MessageText(display, added), x)
  {
    var text := MessageText(display, added);
    assert OccursAt(text, display, 0);
    forall x | x in added
      ensures Mentions(text, x)
    {
      var k :| 0 <= k < |added| && added[k] == x;
      JoinMentions(added, ", ", k);
      var i: nat :| OccursAt(Join(added, ", "), x, i);
      OccursInLonger(display + MessageMiddle, Join(added, ", "), MessageEnd, x, i);
    }
  }
}
