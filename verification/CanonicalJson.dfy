/**
  The canonical printer that both sides of a marketplace exchange hash: JSON text with the members of
  every object in the order of their keys. Two values print alike exactly when they are equal up to the
  order of members.
 */
module CanonicalJson {
  import opened Wrappers
  import opened Json

  /** The order of Array.prototype.sort without a comparator: by code units. */
  predicate Before(a: Str, b: Str) {
    b != [] && (a == [] || a[0] < b[0] || (a[0] == b[0] && Before(a[1..], b[1..])))
  }

  // ---- the printer ----

  function Size(v: Value): nat {
    match v
    case Arr(items) => 1 + ItemsSize(items)
    case Obj(members) => 1 + MembersSize(members)
    case _ => 1
  }

  function ItemsSize(items: Items): nat {
    match items
    case Empty => 0
    case Item(head, tail) => 1 + Size(head) + ItemsSize(tail)
  }

  function MembersSize(members: Members): nat {
    match members
    case NoMembers => 0
    case Member(_, value, rest) => 1 + Size(value) + MembersSize(rest)
  }

  function Insert(key: Str, value: Value, members: Members): (r: Members)
    ensures MembersSize(r) == 1 + Size(value) + MembersSize(members)
  {
    match members
    case NoMembers => Member(key, value, NoMembers)
    case Member(k, v, rest) =>
      if Before(k, key) then Member(k, v, Insert(key, value, rest)) else Member(key, value, members)
  }

  function SortKeys(members: Members): (r: Members)
    ensures MembersSize(r) == MembersSize(members)
  {
    match members
    case NoMembers => NoMembers
    case Member(key, value, rest) => Insert(key, value, SortKeys(rest))
  }

  function Joined(a: Option<Str>, b: Option<Str>): Option<Str> {
    if a.Some? && b.Some? then Some(a.value + [COMMA] + b.value) else None
  }

  /** Nothing stands for the TypeError that a value outside JSON raises. */
  function Print(v: Value): Option<Str>
    decreases Size(v), 0
  {
    match v
    case Arr(items) =>
      var body := PrintItems(items);
      if body.Some? then Some([OPEN_ARRAY] + body.value + [CLOSE_ARRAY]) else None
    case Obj(members) =>
      var body := PrintMembers(SortKeys(members));
      if body.Some? then Some([OPEN_OBJECT] + body.value + [CLOSE_OBJECT]) else None
    case Foreign => None
    case _ => Some(Stringify(v))
  }

  function PrintItems(items: Items): Option<Str>
    decreases ItemsSize(items), 0
  {
    match items
    case Empty => Some([])
    case Item(head, tail) => if tail == Empty then Print(head) else Joined(Print(head), PrintItems(tail))
  }

  function PrintMember(key: Str, value: Value): Option<Str>
    decreases Size(value), 1
  {
    var text := Print(value);
    if text.Some? then Some(Quote(key) + [COLON] + text.value) else None
  }

  function PrintMembers(members: Members): Option<Str>
    decreases MembersSize(members), 0
  {
    match members
    case NoMembers => Some([])
    case Member(key, value, rest) =>
      if rest == NoMembers then PrintMember(key, value) else Joined(PrintMember(key, value), PrintMembers(rest))
  }

  // ---- equality up to the order of members ----

  function Find(members: Members, key: Str): Option<Value> {
    match members
    case NoMembers => None
    case Member(k, v, rest) => if k == key then Some(v) else Find(rest, key)
  }

  /** An object holds each key once. */
  predicate Distinct(members: Members) {
    match members
    case NoMembers => true
    case Member(key, _, rest) => Find(rest, key).None? && Distinct(rest)
  }

  predicate WellFormed(v: Value) {
    match v
    case Num(token) => IsNumber(token)
    case Arr(items) => ItemsFormed(items)
    case Obj(members) => Distinct(members) && MembersFormed(members)
    case _ => true
  }

  predicate ItemsFormed(items: Items) {
    match items
    case Empty => true
    case Item(head, tail) => WellFormed(head) && ItemsFormed(tail)
  }

  predicate MembersFormed(members: Members) {
    match members
    case NoMembers => true
    case Member(_, value, rest) => WellFormed(value) && MembersFormed(rest)
  }

  /** The same value, when the order of an object's members does not matter. */
  predicate Same(a: Value, b: Value) {
    match a
    case Arr(x) => b.Arr? && SameItems(x, b.items)
    case Obj(x) => b.Obj? && SameWithin(x, b.members) && KeysWithin(b.members, x)
    case _ => a == b
  }

  predicate SameItems(a: Items, b: Items) {
    match a
    case Empty => b == Empty
    case Item(head, tail) => b.Item? && Same(head, b.head) && SameItems(tail, b.tail)
  }

  /** Each member of `a` has the same value under the same key of `b`. */
  predicate SameWithin(a: Members, b: Members) {
    match a
    case NoMembers => true
    case Member(key, value, rest) =>
      Find(b, key).Some? && Same(value, Find(b, key).value) && SameWithin(rest, b)
  }

  predicate KeysWithin(a: Members, b: Members) {
    match a
    case NoMembers => true
    case Member(key, _, rest) => Find(b, key).Some? && KeysWithin(rest, b)
  }

  // ---- the value with its members in order ----

  function Canon(v: Value): Value {
    match v
    case Arr(items) => Arr(CanonItems(items))
    case Obj(members) => Obj(SortKeys(CanonMembers(members)))
    case _ => v
  }

  function CanonItems(items: Items): Items {
    match items
    case Empty => Empty
    case Item(head, tail) => Item(Canon(head), CanonItems(tail))
  }

  function CanonMembers(members: Members): Members {
    match members
    case NoMembers => NoMembers
    case Member(key, value, rest) => Member(key, Canon(value), CanonMembers(rest))
  }

  lemma {:induction false} CanonInsert(key: Str, value: Value, members: Members)
    ensures CanonMembers(Insert(key, value, members)) == Insert(key, Canon(value), CanonMembers(members))
  {
    match members
    case NoMembers =>
    case Member(_, _, rest) => CanonInsert(key, value, rest);
  }

  lemma {:induction false} CanonSort(members: Members)
    ensures CanonMembers(SortKeys(members)) == SortKeys(CanonMembers(members))
  {
    match members
    case NoMembers =>
    case Member(key, value, rest) =>
      CanonSort(rest);
      CanonInsert(key, value, SortKeys(rest));
  }

  // ---- what the printer prints ----

  lemma {:induction false} InsertJson(key: Str, value: Value, members: Members)
    ensures MembersJson(Insert(key, value, members)) <==> IsJson(value) && MembersJson(members)
  {
    match members
    case NoMembers =>
    case Member(_, _, rest) => InsertJson(key, value, rest);
  }

  lemma {:induction false} SortJson(members: Members)
    ensures MembersJson(SortKeys(members)) <==> MembersJson(members)
  {
    match members
    case NoMembers =>
    case Member(key, value, rest) =>
      SortJson(rest);
      InsertJson(key, value, SortKeys(rest));
  }

  lemma {:induction false} CanonJson(v: Value)
    ensures IsJson(Canon(v)) <==> IsJson(v)
  {
    match v
    case Arr(items) => CanonItemsJson(items);
    case Obj(members) =>
      CanonMembersJson(members);
      SortJson(CanonMembers(members));
    case _ =>
  }

  lemma {:induction false} CanonItemsJson(items: Items)
    ensures AllJson(CanonItems(items)) <==> AllJson(items)
  {
    match items
    case Empty =>
    case Item(head, tail) =>
      CanonJson(head);
      CanonItemsJson(tail);
  }

  lemma {:induction false} CanonMembersJson(members: Members)
    ensures MembersJson(CanonMembers(members)) <==> MembersJson(members)
  {
    match members
    case NoMembers =>
    case Member(_, value, rest) =>
      CanonJson(value);
      CanonMembersJson(rest);
  }

  /** A wire value prints as the compact text of its ordered form; any other value is refused. */
  lemma {:induction false} PrintsOrdered(v: Value)
    requires WellFormed(v)
    ensures Print(v) == if IsJson(v) then Some(Stringify(Canon(v))) else None
    decreases Size(v)
  {
    match v
    case Arr(items) => ItemsPrintOrdered(items);
    case Obj(members) =>
      SortFormed(members);
      SortJson(members);
      CanonSort(members);
      MembersPrintOrdered(SortKeys(members));
    case _ =>
  }

  lemma {:induction false} ItemsPrintOrdered(items: Items)
    requires ItemsFormed(items)
    ensures PrintItems(items) == if AllJson(items) then Some(StringifyItems(CanonItems(items))) else None
    decreases ItemsSize(items)
  {
    match items
    case Empty =>
    case Item(head, tail) =>
      PrintsOrdered(head);
      ItemsPrintOrdered(tail);
      assert Stringify(Canon(head)) + [] == Stringify(Canon(head));
      if AllJson(items) && tail != Empty {
        assert Stringify(Canon(head)) + [COMMA] + StringifyItems(CanonItems(tail))
               == Stringify(Canon(head)) + ([COMMA] + StringifyItems(CanonItems(tail)));
      }
  }

  lemma {:induction false} MembersPrintOrdered(members: Members)
    requires MembersFormed(members)
    ensures PrintMembers(members)
            == if MembersJson(members) then Some(StringifyMembers(CanonMembers(members))) else None
    decreases MembersSize(members)
  {
    match members
    case NoMembers =>
    case Member(key, value, rest) =>
      PrintsOrdered(value);
      MembersPrintOrdered(rest);
      var head := Quote(key) + [COLON] + Stringify(Canon(value));
      assert head + [] == head;
      if MembersJson(members) && rest != NoMembers {
        assert head + [COMMA] + StringifyMembers(CanonMembers(rest))
               == head + ([COMMA] + StringifyMembers(CanonMembers(rest)));
      }
  }

  // ---- sorting keeps what is found and is unique ----

  predicate Sorted(members: Members) {
    match members
    case NoMembers => true
    case Member(key, _, rest) => (rest == NoMembers || Before(key, rest.key)) && Sorted(rest)
  }

  lemma {:induction false} BeforeIsOrder(a: Str, b: Str, c: Str)
    ensures !Before(a, a)
    ensures a == b || Before(a, b) || Before(b, a)
    ensures Before(a, b) ==> !Before(b, a)
    ensures Before(a, b) && Before(b, c) ==> Before(a, c)
    decreases |a|
  {
    if a != [] && b != [] && c != [] {
      BeforeIsOrder(a[1..], b[1..], c[1..]);
      assert a[0] == b[0] && a[1..] == b[1..] ==> a == b;
    } else if a != [] && b != [] {
      BeforeIsOrder(a[1..], b[1..], []);
      assert a[0] == b[0] && a[1..] == b[1..] ==> a == b;
    } else if a != [] {
      BeforeIsOrder(a[1..], [], []);
    }
  }

  lemma {:induction false} FindInserted(key: Str, value: Value, members: Members, k: Str)
    requires Find(members, key).None?
    ensures Find(Insert(key, value, members), k) == if k == key then Some(value) else Find(members, k)
  {
    match members
    case NoMembers =>
    case Member(_, _, rest) => FindInserted(key, value, rest, k);
  }

  lemma {:induction false} FindSorted(members: Members, k: Str)
    requires Distinct(members)
    ensures Find(SortKeys(members), k) == Find(members, k)
  {
    match members
    case NoMembers =>
    case Member(key, value, rest) =>
      FindSorted(rest, k);
      FindSorted(rest, key);
      FindInserted(key, value, SortKeys(rest), k);
  }

  lemma {:induction false} InsertSorts(key: Str, value: Value, members: Members)
    requires Sorted(members) && Find(members, key).None?
    ensures Sorted(Insert(key, value, members))
  {
    match members
    case NoMembers =>
    case Member(k, _, rest) =>
      BeforeIsOrder(k, key, key);
      if Before(k, key) {
        InsertSorts(key, value, rest);
      }
  }

  lemma {:induction false} SortSorts(members: Members)
    requires Distinct(members)
    ensures Sorted(SortKeys(members))
  {
    match members
    case NoMembers =>
    case Member(key, value, rest) =>
      SortSorts(rest);
      FindSorted(rest, key);
      InsertSorts(key, value, SortKeys(rest));
  }

  lemma {:induction false} SortFormed(members: Members)
    ensures MembersFormed(SortKeys(members)) <==> MembersFormed(members)
  {
    match members
    case NoMembers =>
    case Member(key, value, rest) =>
      SortFormed(rest);
      InsertFormed(key, value, SortKeys(rest));
  }

  lemma {:induction false} InsertFormed(key: Str, value: Value, members: Members)
    ensures MembersFormed(Insert(key, value, members)) <==> WellFormed(value) && MembersFormed(members)
  {
    match members
    case NoMembers =>
    case Member(_, _, rest) => InsertFormed(key, value, rest);
  }

  /** A key before the first key of a sorted list is not in it. */
  lemma {:induction false} TooSmall(members: Members, key: Str)
    requires Sorted(members) && (members == NoMembers || Before(key, members.key))
    ensures Find(members, key).None?
  {
    match members
    case NoMembers =>
    case Member(k, _, rest) =>
      BeforeIsOrder(key, k, k);
      if rest != NoMembers {
        BeforeIsOrder(key, k, rest.key);
      }
      TooSmall(rest, key);
  }

  ghost predicate Alike(a: Members, b: Members) {
    forall k :: Find(a, k) == Find(b, k)
  }

  lemma {:induction false} SortedIsUnique(a: Members, b: Members)
    requires Sorted(a) && Sorted(b) && Alike(a, b)
    ensures a == b
    decreases a
  {
    if a == NoMembers {
      assert b != NoMembers ==> Find(b, b.key) == Find(a, b.key);
    } else {
      assert Find(b, a.key) == Find(a, a.key);
      assert Find(b, b.key) == Find(a, b.key);
      BeforeIsOrder(a.key, b.key, b.key);
      BeforeIsOrder(a.key, a.key, a.key);
      if Before(a.key, b.key) {
        TooSmall(b, a.key);
      } else if Before(b.key, a.key) {
        TooSmall(a, b.key);
      }
      TooSmall(a.rest, a.key);
      TooSmall(b.rest, b.key);
      forall k
        ensures Find(a.rest, k) == Find(b.rest, k)
      {
        assert Find(a, k) == Find(b, k);
      }
      SortedIsUnique(a.rest, b.rest);
    }
  }

  // ---- same up to order, and the same ordered form ----

  lemma {:induction false} FindCanon(members: Members, k: Str)
    ensures Find(CanonMembers(members), k)
            == if Find(members, k).Some? then Some(Canon(Find(members, k).value)) else None
  {
    match members
    case NoMembers =>
    case Member(_, _, rest) => FindCanon(rest, k);
  }

  lemma {:induction false} CanonDistinct(members: Members)
    ensures Distinct(CanonMembers(members)) <==> Distinct(members)
  {
    match members
    case NoMembers =>
    case Member(key, _, rest) =>
      FindCanon(rest, key);
      CanonDistinct(rest);
  }

  lemma {:induction false} FindFormed(members: Members, k: Str)
    requires MembersFormed(members) && Find(members, k).Some?
    ensures WellFormed(Find(members, k).value)
  {
    if k != members.key {
      FindFormed(members.rest, k);
    }
  }

  lemma {:induction false} KeysFound(a: Members, b: Members, k: Str)
    requires KeysWithin(a, b) && Find(a, k).Some?
    ensures Find(b, k).Some?
  {
    if k != a.key {
      KeysFound(a.rest, b, k);
    }
  }

  lemma {:induction false} KeysListed(a: Members, b: Members)
    requires forall k :: Find(a, k).Some? ==> Find(b, k).Some?
    requires Distinct(a)
    ensures KeysWithin(a, b)
  {
    if a != NoMembers {
      assert Find(a, a.key).Some?;
      forall k | Find(a.rest, k).Some?
        ensures Find(b, k).Some?
      {
        assert Find(a, k).Some?;
      }
      KeysListed(a.rest, b);
    }
  }

  lemma {:induction false} SameIffCanon(a: Value, b: Value)
    requires WellFormed(a) && WellFormed(b)
    ensures Same(a, b) <==> Canon(a) == Canon(b)
    decreases a, 2
  {
    match a
    case Arr(x) =>
      if b.Arr? {
        SameItemsIffCanon(x, b.items);
      }
    case Obj(x) =>
      if b.Obj? {
        SameMembersIffCanon(x, b.members);
      }
    case _ =>
  }

  lemma {:induction false} SameItemsIffCanon(a: Items, b: Items)
    requires ItemsFormed(a) && ItemsFormed(b)
    ensures SameItems(a, b) <==> CanonItems(a) == CanonItems(b)
    decreases a
  {
    if a.Item? && b.Item? {
      SameIffCanon(a.head, b.head);
      SameItemsIffCanon(a.tail, b.tail);
    }
  }

  /** The member of `a` under `k`, if there is one, has the same ordered form in `b`. */
  predicate FoundAlike(a: Members, b: Members, k: Str) {
    Find(a, k).Some? ==> Find(b, k).Some? && Canon(Find(a, k).value) == Canon(Find(b, k).value)
  }

  lemma {:induction false} SameWithinIffCanon(a: Members, b: Members)
    requires MembersFormed(a) && MembersFormed(b) && Distinct(a)
    ensures SameWithin(a, b) <==> forall k :: FoundAlike(a, b, k)
    decreases a, 0
  {
    if a.Member? {
      SameWithinIffCanon(a.rest, b);
      if Find(b, a.key).Some? {
        FindFormed(b, a.key);
        SameIffCanon(a.value, Find(b, a.key).value);
      }
      assert FoundAlike(a, b, a.key) <==> Find(b, a.key).Some? && Same(a.value, Find(b, a.key).value);
      forall k
        ensures k != a.key ==> (FoundAlike(a, b, k) <==> FoundAlike(a.rest, b, k))
        ensures FoundAlike(a.rest, b, a.key)
      {
      }
    }
  }

  lemma {:induction false} SameMembersIffCanon(a: Members, b: Members)
    requires MembersFormed(a) && MembersFormed(b) && Distinct(a) && Distinct(b)
    ensures SameWithin(a, b) && KeysWithin(b, a) <==> SortKeys(CanonMembers(a)) == SortKeys(CanonMembers(b))
    decreases a, 1
  {
    SameWithinIffCanon(a, b);
    CanonDistinct(a);
    CanonDistinct(b);
    var p, q := SortKeys(CanonMembers(a)), SortKeys(CanonMembers(b));
    SortSorts(CanonMembers(a));
    SortSorts(CanonMembers(b));
    forall k
      ensures Find(p, k) == if Find(a, k).Some? then Some(Canon(Find(a, k).value)) else None
      ensures Find(q, k) == if Find(b, k).Some? then Some(Canon(Find(b, k).value)) else None
    {
      FindSorted(CanonMembers(a), k);
      FindSorted(CanonMembers(b), k);
      FindCanon(a, k);
      FindCanon(b, k);
    }
    if SameWithin(a, b) && KeysWithin(b, a) {
      forall k
        ensures Find(p, k) == Find(q, k)
      {
        assert FoundAlike(a, b, k);
        if Find(b, k).Some? {
          KeysFound(b, a, k);
        }
      }
      SortedIsUnique(p, q);
    }
    if p == q {
      forall k
        ensures FoundAlike(a, b, k) && FoundAlike(b, a, k)
      {
        assert Find(p, k) == Find(q, k);
      }
      assert forall k :: Find(b, k).Some? ==> FoundAlike(b, a, k);
      KeysListed(b, a);
    }
  }

  // ---- ordering twice changes nothing ----

  lemma {:induction false} CanonFormed(v: Value)
    requires WellFormed(v)
    ensures WellFormed(Canon(v))
  {
    match v
    case Arr(items) => CanonItemsFormed(items);
    case Obj(members) =>
      CanonMembersFormed(members);
      CanonDistinct(members);
      SortFormed(CanonMembers(members));
      SortDistinct(CanonMembers(members));
    case _ =>
  }

  lemma {:induction false} CanonItemsFormed(items: Items)
    requires ItemsFormed(items)
    ensures ItemsFormed(CanonItems(items))
  {
    match items
    case Empty =>
    case Item(head, tail) =>
      CanonFormed(head);
      CanonItemsFormed(tail);
  }

  lemma {:induction false} CanonMembersFormed(members: Members)
    requires MembersFormed(members)
    ensures MembersFormed(CanonMembers(members))
  {
    match members
    case NoMembers =>
    case Member(_, value, rest) =>
      CanonFormed(value);
      CanonMembersFormed(rest);
  }

  lemma {:induction false} SortedDistinct(members: Members)
    requires Sorted(members)
    ensures Distinct(members)
  {
    match members
    case NoMembers =>
    case Member(key, _, rest) =>
      TooSmall(rest, key);
      SortedDistinct(rest);
  }

  lemma SortDistinct(members: Members)
    requires Distinct(members)
    ensures Distinct(SortKeys(members))
  {
    SortSorts(members);
    SortedDistinct(SortKeys(members));
  }

  lemma SortedStays(members: Members)
    requires Sorted(members)
    ensures SortKeys(members) == members
  {
    SortedDistinct(members);
    SortSorts(members);
    forall k
      ensures Find(SortKeys(members), k) == Find(members, k)
    {
      FindSorted(members, k);
    }
    SortedIsUnique(SortKeys(members), members);
  }

  lemma {:induction false} CanonTwice(v: Value)
    requires WellFormed(v)
    ensures Canon(Canon(v)) == Canon(v)
  {
    match v
    case Arr(items) => CanonItemsTwice(items);
    case Obj(members) =>
      var c := CanonMembers(members);
      CanonMembersTwice(members);
      CanonDistinct(members);
      CanonSort(c);
      SortSorts(c);
      SortedStays(SortKeys(c));
    case _ =>
  }

  lemma {:induction false} CanonItemsTwice(items: Items)
    requires ItemsFormed(items)
    ensures CanonItems(CanonItems(items)) == CanonItems(items)
  {
    match items
    case Empty =>
    case Item(head, tail) =>
      CanonTwice(head);
      CanonItemsTwice(tail);
  }

  lemma {:induction false} CanonMembersTwice(members: Members)
    requires MembersFormed(members)
    ensures CanonMembers(CanonMembers(members)) == CanonMembers(members)
  {
    match members
    case NoMembers =>
    case Member(_, value, rest) =>
      CanonTwice(value);
      CanonMembersTwice(rest);
  }

  // ---- the claims ----

  /** The printer refuses exactly the values that hold something JSON has no form for. */
  lemma RefusesForeign(v: Value)
    requires WellFormed(v)
    ensures Print(v).None? <==> !IsJson(v)
  {
    PrintsOrdered(v);
  }

  /** A parser reads the print back as the value itself, up to the order of members. */
  lemma PrintParses(v: Value)
    requires WellFormed(v) && IsJson(v)
    ensures Print(v).Some? && Parse(Print(v).value) == Some(Canon(v))
    ensures WellFormed(Canon(v)) && Same(v, Canon(v)) && Print(Canon(v)) == Print(v)
  {
    PrintsOrdered(v);
    CanonJson(v);
    ParseInvertsStringify(Canon(v));
    CanonFormed(v);
    CanonTwice(v);
    SameIffCanon(v, Canon(v));
    PrintsOrdered(Canon(v));
  }

  /** Two wire values print the same text exactly when they are equal up to the order of members. */
  lemma CanonicalAndInjective(a: Value, b: Value)
    requires WellFormed(a) && WellFormed(b) && IsJson(a) && IsJson(b)
    ensures Print(a) == Print(b) <==> Same(a, b)
  {
    PrintsOrdered(a);
    PrintsOrdered(b);
    CanonJson(a);
    CanonJson(b);
    ParseInvertsStringify(Canon(a));
    ParseInvertsStringify(Canon(b));
    SameIffCanon(a, b);
  }
}
