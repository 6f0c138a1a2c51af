/** What the deadline scheduler does with single requests, said by sectors and expiry times: which request a dispatch
    call sends, and what an add, a front merge and a merge of two requests do to the indexes. */
module DeadlineOrder {

  import opened Common
  import opened Deadline

  // ---------------------------------------------------------------- Which request goes

  /** Some request starts above `sector`. */
  ghost predicate AnyAbove(sort: seq<Item>, sector: int) { exists x :: x in sort && sector < x.key }

  /** Of those, `id` starts lowest. */
  ghost predicate LeastAbove(sort: seq<Item>, sector: int, id: nat) {
    exists x :: x in sort && x.id == id && sector < x.key && forall y :: y in sort && sector < y.key ==> x.key <= y.key
  }

  /** A new batch is one of writes: there are some, and no reads, or they have been passed over often enough. */
  predicate WritesDue(s: State, c: Config) {
    s.write.fifo != [] && (s.read.fifo == [] || c.Starve() <= s.starved)
  }

  /** The batch of `w` after a request at `sector` goes on: it is not over and there are requests above; or it is, and
      the next one is of the same direction, whose oldest request has not expired. */
  ghost predicate StaysAbove(s: State, c: Config, w: bool, sector: int) {
    && AnyAbove(s.Get(w).sort, sector)
    && (s.batching < c.batch || (WritesDue(s, c) == w && s.Get(w).fifo != [] && s.now <= s.Get(w).fifo[0].key))
  }

  lemma {:induction false} LatterIsLeast(sort: seq<Item>, x: Item)
    requires Strict(sort) && Distinct(sort) && x in sort
    ensures var l := Latter(sort, x.id);
            if AnyAbove(sort, x.key) then l.Some? && LeastAbove(sort, x.key, l.value) else l == None
  {
    var i := Find(sort, x.id);
    var k :| 0 <= k < |sort| && sort[k] == x;
    assert i == k;
    if i + 1 < |sort| {
      var y := sort[i + 1];
      assert y in sort && x.key < y.key;
      forall z | z in sort && x.key < z.key ensures y.key <= z.key {
        var j :| 0 <= j < |sort| && sort[j] == z;
      }
    } else {
      forall z | z in sort ensures z.key <= x.key {
        var j :| 0 <= j < |sort| && sort[j] == z;
      }
    }
  }

  /** The requests above are the same without `x`. */
  lemma {:induction false} AboveWithout(sort: seq<Item>, x: Item)
    requires Distinct(sort) && x in sort
    ensures AnyAbove(Drop(sort, x.id), x.key) == AnyAbove(sort, x.key)
    ensures forall id: nat :: LeastAbove(Drop(sort, x.id), x.key, id) == LeastAbove(sort, x.key, id)
    ensures forall y :: y in Drop(sort, x.id) <==> y in sort && y != x
  {
    var rest := Drop(sort, x.id);
    forall y ensures y in rest <==> y in sort && y != x {
      DropItems(sort, x.id, y);
      if y in sort { OnlyItem(sort, x, y); }
    }
  }

  lemma {:induction false} OnlyItem(sort: seq<Item>, x: Item, y: Item)
    requires Distinct(sort) && x in sort && y in sort
    ensures x.id == y.id ==> x == y
  {
    var i :| 0 <= i < |sort| && sort[i] == x;
    var j :| 0 <= j < |sort| && sort[j] == y;
  }

  lemma {:induction false} DropItems(sort: seq<Item>, id: nat, y: Item)
    requires Distinct(sort)
    ensures y in Drop(sort, id) <==> y in sort && y.id != id
  {
    var i, rest := Find(sort, id), Drop(sort, id);
    if y in rest && i < |sort| {
      var k :| 0 <= k < |rest| && rest[k] == y;
      assert sort[if k < i then k else k + 1] == y;
    }
    if y in sort && y.id != id {
      var k :| 0 <= k < |sort| && sort[k] == y;
      assert rest[if k < i then k else k - 1] == y;
    }
  }

  /** What a call leaves that has sent `x` of direction `w`. */
  lemma {:induction false} AfterCall(s: State, c: Config, w: bool, x: Item)
    requires Inv(s, c) && x in s.Get(w).sort && Call(s, c).sent == s.sent + [x.id]
    ensures var t := Call(s, c);
            && t.Get(w).sort == Drop(s.Get(w).sort, x.id) && t.Get(w).next == Latter(s.Get(w).sort, x.id)
            && t.Get(!w).next == None
  {
    assert Has(s.Get(w).sort, x.id) by { ItemHas(s.Get(w).sort, x); }
    ChooseOk(s, c);
    hide Choose, Has, Drop, Latter;
    var r := Choose(s, c);
    assert r.Serve? && r.id == x.id by { SentOne(s, c, x.id); }
    assert r.write == w;
    RemoveNext(s.Get(w), x.id);
  }

  lemma {:induction false} ItemHas(sort: seq<Item>, x: Item)
    requires x in sort
    ensures Has(sort, x.id)
  {
  }

  lemma {:induction false} SentOne(s: State, c: Config, id: nat)
    requires Call(s, c).sent == s.sent + [id]
    ensures Choose(s, c).Serve? && Choose(s, c).id == id
  {
    hide Choose;
    if Choose(s, c).Serve? { assert (s.sent + [Choose(s, c).id])[|s.sent|] == (s.sent + [id])[|s.sent|]; }
  }

  /** Two dispatch calls with nothing but time in between. The first sends a request of direction `w` that starts at
      `x.key`. If the batch goes on, the second sends the request of that direction that starts lowest above it;
      otherwise the oldest request of the direction whose turn it is. */
  lemma {:induction false} CallGoesOn(s: State, c: Config, w: bool, x: Item, now: int)
    requires Inv(s, c) && x in s.Get(w).sort && Call(s, c).sent == s.sent + [x.id]
    requires var t := Call(s, c); t.read.fifo != [] || t.write.fifo != []
    ensures var t := Call(s, c).(now := now);
            var sent := Call(t, c).sent;
            && |sent| == |t.sent| + 1 && sent[..|t.sent|] == t.sent
            && t.Get(WritesDue(t, c)).fifo != []
            && if StaysAbove(t, c, w, x.key) then LeastAbove(t.Get(w).sort, x.key, sent[|t.sent|])
               else sent[|t.sent|] == t.Get(WritesDue(t, c)).fifo[0].id
  {
    var t := Call(s, c).(now := now);
    AfterCall(s, c, w, x);
    LaneSorted(s, c, w);
    hide Call, Drop, Latter, AnyAbove, LeastAbove, Inv;
    LatterIsLeast(s.Get(w).sort, x);
    AboveWithout(s.Get(w).sort, x);
    SecondCall(t, c);
  }

  /** What a call sends, by the place the last batch has come to. */
  lemma {:induction false} SecondCall(t: State, c: Config)
    requires t.read.fifo != [] || t.write.fifo != []
    requires t.read.next == None || t.write.next == None
    ensures var w, due := t.write.next.Some?, WritesDue(t, c);
            && t.Get(due).fifo != []
            && Call(t, c).sent == t.sent + [if t.Get(w).next.Some? && t.batching < c.batch then t.Get(w).next.value
                                            else if t.Get(due).next.Some? && t.now <= t.Get(due).fifo[0].key
                                            then t.Get(due).next.value
                                            else t.Get(due).fifo[0].id]
  {
  }

  /** With no batch to go on with, a call sends the oldest request of the direction whose turn it is. */
  lemma {:induction false} CallStarts(s: State, c: Config)
    requires s.read.next == None && s.write.next == None && (s.read.fifo != [] || s.write.fifo != [])
    ensures s.Get(WritesDue(s, c)).fifo != [] && Call(s, c).sent == s.sent + [s.Get(WritesDue(s, c)).fifo[0].id]
  {
    SecondCall(s, c);
  }

  // ---------------------------------------------------------------- What becomes of the indexes

  /** The request of a direction that starts at `sector`, if there is one, is sent off and leaves the fifo. */
  ghost predicate SendsAlias(l: Lane, sector: int, sent: seq<nat>, sent': seq<nat>, fifo': seq<Item>) {
    if exists x :: x in l.sort && x.key == sector
    then exists x :: x in l.sort && x.key == sector && sent' == sent + [x.id] && fifo' == Drop(l.fifo, x.id)
    else sent' == sent && fifo' == l.fifo
  }

  /** Request `id` starts at `sector`, and the others, but for one that did, start where they started. */
  ghost predicate PlacedAt(sort: seq<Item>, id: nat, sector: int, sort': seq<Item>) {
    forall y :: y in sort' <==> y == Item(id, sector) || (y in sort && y.key != sector)
  }

  lemma {:induction false} PutItems(sort: seq<Item>, i: nat, x: Item, y: Item)
    requires i <= |sort|
    ensures y in Put(sort, i, x) <==> y in sort || y == x
  {
    var t := Put(sort, i, x);
    assert t[i] == x;
    if y in sort {
      var k :| 0 <= k < |sort| && sort[k] == y;
      assert t[if k < i then k else k + 1] == y;
    }
    if y in t && y != x {
      var k :| 0 <= k < |t| && t[k] == y;
      assert sort[if k < i then k else k - 1] == y;
    }
  }

  /** Who starts at `sector`, if anyone. */
  lemma {:induction false} AliasIs(sort: seq<Item>, sector: int)
    requires Strict(sort)
    ensures var a := Alias(sort, sector);
            if a.Some? then Item(a.value, sector) in sort else forall x :: x in sort ==> x.key != sector
  {
    AliasHas(sort, sector);
    var i := Slot(sort, sector);
    if Alias(sort, sector).Some? { assert sort[i] == Item(Alias(sort, sector).value, sector); }
  }

  lemma {:induction false} OnlyAt(sort: seq<Item>, sector: int, x: Item, y: Item)
    requires Strict(sort) && x in sort && y in sort && x.key == sector == y.key
    ensures x == y
  {
    var i :| 0 <= i < |sort| && sort[i] == x;
    var j :| 0 <= j < |sort| && sort[j] == y;
  }

  /** Placing `id` at `sector` in a direction that does not have it: the request there before is sent off, the others
      stay. */
  lemma {:induction false} PlaceSays(s: State, w: bool, id: nat, sector: int)
    requires Strict(s.Get(w).sort) && Distinct(s.Get(w).sort) && Distinct(s.Get(w).fifo)
    ensures var l, t := s.Get(w), Place(s, w, id, sector);
            && PlacedAt(l.sort, id, sector, t.Get(w).sort)
            && SendsAlias(l, sector, s.sent, t.sent, t.Get(w).fifo)
            && t.Get(!w).sort == s.Get(!w).sort && t.Get(!w).fifo == s.Get(!w).fifo && t.now == s.now
  {
    var l, t, a := s.Get(w), Place(s, w, id, sector), Alias(s.Get(w).sort, sector);
    AliasIs(l.sort, sector);
    hide Distinct, Strict, Latter, Alias;
    var rest := if a.Some? then Drop(l.sort, a.value) else l.sort;
    forall y ensures y in t.Get(w).sort <==> y == Item(id, sector) || (y in l.sort && y.key != sector) {
      PutItems(rest, Slot(rest, sector), Item(id, sector), y);
      if a.Some? {
        DropItems(l.sort, a.value, y);
        if y in l.sort {
          OnlyItem(l.sort, Item(a.value, sector), y);
          if y.key == sector { OnlyAt(l.sort, sector, Item(a.value, sector), y); }
        }
      }
    }
  }

  lemma {:induction false} LaneOrdered(s: State, c: Config, w: bool)
    requires Inv(s, c)
    ensures Strict(s.Get(w).sort) && Distinct(s.Get(w).sort) && Distinct(s.Get(w).fifo) && Ascending(s.Get(w).fifo)
    ensures Bounded(s.Get(w).fifo, s.now + c.Expire(w))
  {
  }

  lemma {:induction false} AddPlaces(s: State, c: Config, w: bool, id: nat, sector: int)
    ensures var p, t := Place(s.(nrSorted := s.nrSorted + 1), w, id, sector), Add(s, c, w, id, sector);
            && t.Get(w).sort == p.Get(w).sort && t.Get(w).fifo == p.Get(w).fifo + [Item(id, p.now + c.Expire(w))]
            && t.Get(!w) == p.Get(!w) && t.sent == p.sent && t.now == p.now
  {
    hide Place;
  }

  /** `deadline_add_request`: the request starts at its sector and expires last; a request that started there is sent
      off; nothing else changes. */
  lemma {:induction false} AddSays(s: State, c: Config, w: bool, id: nat, sector: int)
    requires Inv(s, c)
    ensures var l, t := s.Get(w), Add(s, c, w, id, sector);
            && PlacedAt(l.sort, id, sector, t.Get(w).sort)
            && (exists f :: && SendsAlias(l, sector, s.sent, t.sent, f)
                            && t.Get(w).fifo == f + [Item(id, s.now + c.Expire(w))])
            && t.Get(!w).sort == s.Get(!w).sort && t.Get(!w).fifo == s.Get(!w).fifo && t.now == s.now
  {
    hide Inv;
    LaneOrdered(s, c, w);
    var u := s.(nrSorted := s.nrSorted + 1);
    assert u.Get(w) == s.Get(w) && u.Get(!w) == s.Get(!w);
    hide *;
    PlaceSays(u, w, id, sector);
    AddPlaces(s, c, w, id, sector);
  }

  /** `deadline_merged_request`: the request starts at its new sector and keeps its expiry; another one that started
      there is sent off; nothing else changes. */
  lemma {:induction false} FrontSays(s: State, c: Config, w: bool, id: nat, sector: int)
    requires Inv(s, c) && Has(s.Get(w).sort, id)
    ensures var l, t := s.Get(w), Front(s, w, id, sector);
            && PlacedAt(Drop(l.sort, id), id, sector, t.Get(w).sort)
            && (forall y :: y in Drop(l.sort, id) <==> y in l.sort && y.id != id)
            && SendsAlias(l.(sort := Drop(l.sort, id)), sector, s.sent, t.sent, t.Get(w).fifo)
            && t.Get(!w).sort == s.Get(!w).sort && t.Get(!w).fifo == s.Get(!w).fifo && t.now == s.now
  {
    hide Inv, Place, Distinct, Strict;
    LaneOrdered(s, c, w);
    var l := s.Get(w);
    DropOk(l.sort, id);
    forall y ensures y in Drop(l.sort, id) <==> y in l.sort && y.id != id { DropItems(l.sort, id, y); }
    hide Drop;
    PlaceSays(s.Set(w, l.(sort := Drop(l.sort, id))), w, id, sector);
  }

  function Min(a: int, b: int): int { if a < b then a else b }

  /** The fifo half of `deadline_merged_requests`. */
  lemma {:induction false} InheritItems(f: seq<Item>, req: Item, next: Item, y: Item)
    requires Distinct(f) && Ascending(f) && req in f && next in f && req.id != next.id
    ensures Find(f, req.id) < |f| && Find(f, next.id) < |f|
    ensures y in Inherit(f, req.id, next.id) <==>
              y == Item(req.id, Min(req.key, next.key)) || (y in f && y.id != req.id)
  {
    FindItem(f, req);
    FindItem(f, next);
    if y in f { OnlyItem(f, req, y); }
    if next.key < req.key {
      DropEarlier(f, req.id, next.id);
      DropItems(f, req.id, y);
      var g := Drop(f, req.id);
      PutItems(g, Find(g, next.id) + 1, Item(req.id, next.key), y);
    }
  }

  lemma {:induction false} FindItem(f: seq<Item>, x: Item)
    requires Distinct(f) && x in f
    ensures Find(f, x.id) < |f| && f[Find(f, x.id)] == x
  {
    var i :| 0 <= i < |f| && f[i] == x;
  }

  /** `deadline_merged_requests`: `next` is gone, `req` stays where it starts and expires with the earlier of the two;
      nothing else changes. */
  lemma {:induction false} JoinSays(s: State, c: Config, w: bool, req: Item, next: Item)
    requires Inv(s, c) && req in s.Get(w).fifo && next in s.Get(w).fifo && req.id != next.id
    ensures Find(s.Get(w).fifo, req.id) < |s.Get(w).fifo| && Find(s.Get(w).fifo, next.id) < |s.Get(w).fifo|
    ensures var l, t := s.Get(w), Join(s, w, req.id, next.id);
            && (forall y :: y in t.Get(w).sort <==> y in l.sort && y.id != next.id)
            && (forall y :: y in t.Get(w).fifo <==> || y == Item(req.id, Min(req.key, next.key))
                                                    || (y in l.fifo && y.id != req.id && y.id != next.id))
            && t.sent == s.sent && t.Get(!w) == s.Get(!w) && t.now == s.now
  {
    LaneOrdered(s, c, w);
    var l := s.Get(w);
    InheritItems(l.fifo, req, next, req);
    ItemHas(l.fifo, req);
    ItemHas(l.fifo, next);
    InheritOk(l.fifo, req.id, next.id, s.now + c.Expire(w));
    hide Inv, Distinct, Ascending, Strict, Inherit, Drop, Has, Latter;
    var g := Inherit(l.fifo, req.id, next.id);
    forall y ensures y in Drop(l.sort, next.id) <==> y in l.sort && y.id != next.id { DropItems(l.sort, next.id, y); }
    forall y ensures y in Drop(g, next.id) <==> || y == Item(req.id, Min(req.key, next.key))
                                                || (y in l.fifo && y.id != req.id && y.id != next.id)
    {
      DropItems(g, next.id, y);
      InheritItems(l.fifo, req, next, y);
    }
  }
}
