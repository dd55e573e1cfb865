/** The item kinds of src/items.py, their display names and the order by
    display name that keeps the player's inventory sorted. The effects of
    `on_use` change the game and live with the rest of the entity rules in
    module Behaviour. */
module Items {

  datatype Item = Gun | SpeedPill | LilyPlant

  /** `__str__`: the displayed name. */
  function Name(i: Item): (r: string)
    ensures r == "Gun" <==> i == Gun
    ensures r == "Speed Pill" <==> i == SpeedPill
    ensures r == "Lily Plant" <==> i == LilyPlant
  {
    match i
    case Gun => "Gun"
    case SpeedPill => "Speed Pill"
    case LilyPlant => "Lily Plant"
  }

  /** Python's `<` on strings: lexicographic order on code points, a proper
      prefix coming first. */
  predicate StrLess(a: string, b: string) {
    if |a| == 0 then |b| > 0
    else if |b| == 0 then false
    else if a[0] != b[0] then a[0] < b[0]
    else StrLess(a[1..], b[1..])
  }

  lemma {:induction false} StrLessIrreflexive(a: string)
    ensures !StrLess(a, a)
  {
    if |a| > 0 {
      StrLessIrreflexive(a[1..]);
    }
  }

  lemma {:induction false} StrLessTransitive(a: string, b: string, c: string)
    requires StrLess(a, b) && StrLess(b, c)
    ensures StrLess(a, c)
  {
    if |a| > 0 && |b| > 0 && |c| > 0 && a[0] == b[0] && b[0] == c[0] {
      StrLessTransitive(a[1..], b[1..], c[1..]);
    }
  }

  /** Any two different strings are ordered one way or the other. */
  lemma {:induction false} StrLessTotal(a: string, b: string)
    requires a != b
    ensures StrLess(a, b) || StrLess(b, a)
  {
    if |a| > 0 && |b| > 0 && a[0] == b[0] {
      assert a == [a[0]] + a[1..] && b == [b[0]] + b[1..];
      StrLessTotal(a[1..], b[1..]);
    }
  }

  /** The position of an item in a sorted inventory: "Gun" < "Lily Plant"
      < "Speed Pill". */
  function Rank(i: Item): nat {
    match i
    case Gun => 0
    case LilyPlant => 1
    case SpeedPill => 2
  }

  /** `Item.__lt__`, which compares display names; written through the
      rank, and `LessIsNameOrder` shows the two orders agree. */
  predicate Less(a: Item, b: Item)
    ensures Less(a, b) ==> a != b && a != SpeedPill && b != Gun
    ensures a == Gun && b != Gun ==> Less(a, b)
    ensures a != SpeedPill && b == SpeedPill ==> Less(a, b)
  {
    Rank(a) < Rank(b)
  }

  /** `Less` is exactly Python's `<` on the display names. */
  lemma LessIsNameOrder(a: Item, b: Item)
    ensures Less(a, b) <==> StrLess(Name(a), Name(b))
  {
    assert Name(Gun)[0] == 'G' && Name(LilyPlant)[0] == 'L' && Name(SpeedPill)[0] == 'S';
    StrLessIrreflexive(Name(a));
  }

  /** Python's `<` on the display names, which `sort` relies on, is a
      strict total order on items: names of different kinds differ and are
      ordered one way or the other, and the order is transitive. */
  lemma NameOrderIsStrictTotal(a: Item, b: Item, c: Item)
    ensures !StrLess(Name(a), Name(a))
    ensures a != b ==> StrLess(Name(a), Name(b)) || StrLess(Name(b), Name(a))
    ensures StrLess(Name(a), Name(b)) && StrLess(Name(b), Name(c)) ==> StrLess(Name(a), Name(c))
  {
    StrLessIrreflexive(Name(a));
    if a != b {
      StrLessTotal(Name(a), Name(b));
    }
    if StrLess(Name(a), Name(b)) && StrLess(Name(b), Name(c)) {
      StrLessTransitive(Name(a), Name(b), Name(c));
    }
  }
}
