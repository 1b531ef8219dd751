/** Joining texts, and finding them again. */
module Texts {

  function Join(separator: string, parts: seq<string>): string {
    if parts == [] then "" else if |parts| == 1 then parts[0]
    else Join(separator, parts[..|parts| - 1]) + separator + parts[|parts| - 1]
  }

  /** Joining two lists is joining them and putting one separator between. */
  lemma {:induction false} JoinBoth(separator: string, a: seq<string>, b: seq<string>)
    ensures a == [] ==> Join(separator, a + b) == Join(separator, b)
    ensures b == [] ==> Join(separator, a + b) == Join(separator, a)
    ensures a != [] && b != [] ==> Join(separator, a + b) == Join(separator, a) + separator + Join(separator, b)
    decreases |b|
  {
    if a == [] {
      assert a + b == b;
    } else if b == [] {
      assert a + b == a;
    } else {
      var front := b[..|b| - 1];
      assert (a + b)[..|a + b| - 1] == a + front;
      JoinBoth(separator, a, front);
      assert front == [] ==> a + front == a;
    }
  }

  predicate Occurs(part: string, text: string) {
    exists i: nat, j: nat | i <= j <= |text| :: text[i..j] == part
  }

  lemma OccursBetween(before: string, part: string, after: string)
    ensures Occurs(part, before + part + after)
  {
    var text := before + part + after;
    assert text[|before|..|before| + |part|] == part;
  }

  lemma OccursWider(part: string, text: string, before: string, after: string)
    requires Occurs(part, text)
    ensures Occurs(part, before + text + after)
  {
    var i: nat, j: nat :| i <= j <= |text| && text[i..j] == part;
    var wide := before + text + after;
    assert wide[|before| + i..|before| + j] == part;
  }

  /** Every part stands in the joined text, behind those before it and in front of those after it. */
  lemma JoinHas(separator: string, parts: seq<string>, i: nat)
    requires i < |parts|
    ensures var before := if i == 0 then "" else Join(separator, parts[..i]) + separator;
            var after := if i == |parts| - 1 then "" else separator + Join(separator, parts[i + 1..]);
            Join(separator, parts) == before + parts[i] + after
    ensures Occurs(parts[i], Join(separator, parts))
  {
    var before := if i == 0 then "" else Join(separator, parts[..i]) + separator;
    var after := if i == |parts| - 1 then "" else separator + Join(separator, parts[i + 1..]);
    var one := [parts[i]];
    assert parts == parts[..i] + (one + parts[i + 1..]);
    JoinBoth(separator, one, parts[i + 1..]);
    JoinBoth(separator, parts[..i], one + parts[i + 1..]);
    assert Join(separator, one) == parts[i];
    OccursBetween(before, parts[i], after);
  }
}
