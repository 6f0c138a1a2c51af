/** The deadline scheduler of block/deadline-iosched.c. Each direction keeps its requests twice, in sector
    order and in expiry order; a batch counter and a starvation counter decide which direction goes next. */
module Deadline {

  import opened Common

  /** A request in one of the indexes: its key is the start sector in the sort list, the expiry time in the
      fifo. */
  datatype Item = Item(id: nat, key: int)

  datatype Lane = Lane(sort: seq<Item>, fifo: seq<Item>, next: Option<nat>)

  /** The tunables. `Starve` is `writes_starved` as the code reads it: the comparison with the unsigned `starved`
      turns a negative setting into a number of at least 2^31. `Batch` is how many requests a batch has: one at
      least, also for a `fifo_batch` of zero. */
  datatype Config = Config(batch: nat, writesStarved: int, readExpire: int, writeExpire: int) {
    function Starve(): nat { if 0 <= writesStarved then writesStarved else writesStarved % 0x1_0000_0000 }
    function Batch(): nat { if batch == 0 then 1 else batch }
    function Expire(w: bool): int { if w then writeExpire else readExpire }
  }

  /** `sent` are the requests moved to the dispatch list, in order. */
  datatype State = State(read: Lane, write: Lane, batching: nat, starved: nat, nrSorted: int, sent: seq<nat>,
                         now: int)
  {
    function Get(w: bool): Lane { if w then write else read }
    function Set(w: bool, l: Lane): State { if w then this.(write := l) else this.(read := l) }
  }

  // ---------------------------------------------------------------- Indexed sequences

  ghost predicate Has(s: seq<Item>, id: nat) { exists i :: 0 <= i < |s| && s[i].id == id }

  ghost predicate Distinct(s: seq<Item>) { forall i, j :: 0 <= i < j < |s| ==> s[i].id != s[j].id }

  ghost predicate Ascending(s: seq<Item>) { forall i, j :: 0 <= i < j < |s| ==> s[i].key <= s[j].key }

  ghost predicate Strict(s: seq<Item>) { forall i, j :: 0 <= i < j < |s| ==> s[i].key < s[j].key }

  ghost predicate Bounded(s: seq<Item>, limit: int) { forall i :: 0 <= i < |s| ==> s[i].key <= limit }

  /** The two indexes hold the same requests. */
  ghost predicate Same(a: seq<Item>, b: seq<Item>) {
    |a| == |b| && forall id: nat :: Has(a, id) <==> Has(b, id)
  }

  /** Where request `id` stands; the length if it does not. */
  function Find(s: seq<Item>, id: nat): (r: nat)
    ensures r <= |s|
    ensures r < |s| ==> s[r].id == id
    ensures forall i :: 0 <= i < r ==> s[i].id != id
  {
    if s == [] || s[0].id == id then 0 else 1 + Find(s[1..], id)
  }

  /** How many requests start before `sector`. */
  function Slot(s: seq<Item>, sector: int): (r: nat)
    ensures r <= |s|
    ensures r < |s| ==> sector <= s[r].key
    ensures forall i :: 0 <= i < r ==> s[i].key < sector
  {
    if s == [] || sector <= s[0].key then 0 else 1 + Slot(s[1..], sector)
  }

  function Cut(s: seq<Item>, i: nat): seq<Item>
    requires i < |s|
  {
    s[..i] + s[i + 1..]
  }

  function Put(s: seq<Item>, i: nat, x: Item): seq<Item>
    requires i <= |s|
  {
    s[..i] + [x] + s[i..]
  }

  function Drop(s: seq<Item>, id: nat): seq<Item> {
    var i := Find(s, id);
    if i < |s| then Cut(s, i) else s
  }

  /** The request after `id` in sector order. */
  function Latter(s: seq<Item>, id: nat): Option<nat> {
    var i := Find(s, id);
    if i + 1 < |s| then Some(s[i + 1].id) else None
  }

  /** The request that already starts at `sector`, if there is one. */
  function Alias(s: seq<Item>, sector: int): Option<nat> {
    var i := Slot(s, sector);
    if i < |s| && s[i].key == sector then Some(s[i].id) else None
  }

  lemma {:induction false} FindHas(s: seq<Item>, id: nat)
    ensures Find(s, id) < |s| <==> Has(s, id)
  {
  }

  lemma {:induction false} CutHas(s: seq<Item>, i: nat, id: nat)
    requires i < |s| && Distinct(s)
    ensures Has(Cut(s, i), id) <==> Has(s, id) && id != s[i].id
  {
    var t := Cut(s, i);
    if Has(t, id) {
      var k :| 0 <= k < |t| && t[k].id == id;
      assert s[if k < i then k else k + 1].id == id;
    }
    if Has(s, id) && id != s[i].id {
      var k :| 0 <= k < |s| && s[k].id == id;
      assert t[if k < i then k else k - 1].id == id;
    }
  }

  lemma {:induction false} CutKeeps(s: seq<Item>, i: nat)
    requires i < |s|
    ensures Distinct(s) ==> Distinct(Cut(s, i))
    ensures Ascending(s) ==> Ascending(Cut(s, i))
    ensures Strict(s) ==> Strict(Cut(s, i))
    ensures forall limit :: Bounded(s, limit) ==> Bounded(Cut(s, i), limit)
  {
  }

  lemma {:induction false} DropOk(s: seq<Item>, id: nat)
    requires Distinct(s)
    ensures Distinct(Drop(s, id)) && (Ascending(s) ==> Ascending(Drop(s, id))) && (Strict(s) ==> Strict(Drop(s, id)))
    ensures forall limit :: Bounded(s, limit) ==> Bounded(Drop(s, id), limit)
    ensures forall x: nat :: Has(Drop(s, id), x) <==> Has(s, x) && x != id
    ensures |Drop(s, id)| == |s| - if Has(s, id) then 1 else 0
  {
    hide Distinct, Ascending, Strict, Bounded;
    FindHas(s, id);
    var i := Find(s, id);
    if i < |s| {
      CutKeeps(s, i);
      forall x: nat ensures Has(Drop(s, id), x) <==> Has(s, x) && x != id { CutHas(s, i, x); }
    }
  }

  lemma {:induction false} PutHas(s: seq<Item>, i: nat, x: Item, id: nat)
    requires i <= |s|
    ensures Has(Put(s, i, x), id) <==> Has(s, id) || id == x.id
  {
    var t := Put(s, i, x);
    assert t[i] == x;
    if Has(s, id) {
      var k :| 0 <= k < |s| && s[k].id == id;
      assert t[if k < i then k else k + 1].id == id;
    }
    if Has(t, id) && id != x.id {
      var k :| 0 <= k < |t| && t[k].id == id;
      assert s[if k < i then k else k - 1].id == id;
    }
  }

  lemma {:induction false} PutDistinct(s: seq<Item>, i: nat, x: Item)
    requires i <= |s| && Distinct(s) && !Has(s, x.id)
    ensures Distinct(Put(s, i, x))
  {
  }

  /** A request whose sector is free goes into its slot. */
  lemma {:induction false} PutSorted(s: seq<Item>, x: Item)
    requires Strict(s) && Alias(s, x.key) == None
    ensures Strict(Put(s, Slot(s, x.key), x))
  {
    var i := Slot(s, x.key);
    assert forall k :: i < k < |s| ==> s[i].key < s[k].key;
  }

  lemma {:induction false} AliasHas(s: seq<Item>, sector: int)
    requires Strict(s)
    ensures Alias(s, sector) == None <==> forall i :: 0 <= i < |s| ==> s[i].key != sector
    ensures Alias(s, sector).Some? ==> Has(s, Alias(s, sector).value)
  {
    var i := Slot(s, sector);
    assert forall k :: i < k < |s| ==> s[i].key < s[k].key;
  }

  lemma {:induction false} LatterHas(s: seq<Item>, id: nat)
    requires Distinct(s)
    ensures Latter(s, id).Some? ==> Has(s, Latter(s, id).value) && Latter(s, id).value != id
  {
  }

  /** Moving the alias away frees the sector, so the loop in `deadline_add_rq_rb` runs at most once. */
  lemma {:induction false} NoSecondAlias(s: seq<Item>, sector: int)
    requires Strict(s) && Distinct(s) && Alias(s, sector).Some?
    ensures Alias(Drop(s, Alias(s, sector).value), sector) == None
  {
    var a := Alias(s, sector).value;
    var i := Slot(s, sector);
    assert Find(s, a) == i;
    var t := Cut(s, i);
    CutKeeps(s, i);
    assert forall k :: 0 <= k < |t| ==> t[k] == s[if k < i then k else k + 1];
    assert forall k :: 0 <= k < |t| ==> t[k].key != sector;
    AliasHas(t, sector);
  }

  // ---------------------------------------------------------------- Steps

  /** `deadline_remove_request`. */
  function Remove(l: Lane, id: nat): Lane {
    Lane(Drop(l.sort, id), Drop(l.fifo, id), if l.next == Some(id) then Latter(l.sort, id) else l.next)
  }

  /** `deadline_move_request`: the batch goes on after `id`, which leaves for the dispatch list. */
  function Move(s: State, w: bool, id: nat): State {
    var l := s.Get(w);
    State(s.read.(next := None), s.write.(next := None), s.batching, s.starved, s.nrSorted - 1, s.sent + [id], s.now)
    .Set(w, Remove(l.(next := Latter(l.sort, id)), id))
  }

  /** `deadline_add_rq_rb`: a request that starts at the same sector is sent off first. */
  function Place(s: State, w: bool, id: nat, sector: int): State {
    var a := Alias(s.Get(w).sort, sector);
    var t := if a.Some? then Move(s, w, a.value) else s;
    var l := t.Get(w);
    t.Set(w, l.(sort := Put(l.sort, Slot(l.sort, sector), Item(id, sector))))
  }

  /** `elv_insert` and `deadline_add_request`. */
  function Add(s: State, c: Config, w: bool, id: nat, sector: int): State {
    var t := Place(s.(nrSorted := s.nrSorted + 1), w, id, sector);
    var l := t.Get(w);
    t.Set(w, l.(fifo := l.fifo + [Item(id, t.now + c.Expire(w))]))
  }

  /** `deadline_merged_request` after a front merge moved the start of `id` to `sector`. */
  function Front(s: State, w: bool, id: nat, sector: int): State {
    var l := s.Get(w);
    Place(s.Set(w, l.(sort := Drop(l.sort, id))), w, id, sector)
  }

  /** The fifo half of `deadline_merged_requests`: `req` takes over the place and the expiry of `next` if that
      expires strictly earlier. */
  function Inherit(f: seq<Item>, req: nat, next: nat): seq<Item>
    requires Find(f, req) < |f| && Find(f, next) < |f|
  {
    var due := f[Find(f, next)].key;
    if due < f[Find(f, req)].key then
      var g := Drop(f, req);
      var i := Find(g, next) + 1;
      Put(g, if i <= |g| then i else |g|, Item(req, due))
    else f
  }

  function Join(s: State, w: bool, req: nat, next: nat): State
    requires Find(s.Get(w).fifo, req) < |s.Get(w).fifo| && Find(s.Get(w).fifo, next) < |s.Get(w).fifo|
  {
    var l := s.Get(w);
    s.(nrSorted := s.nrSorted - 1).Set(w, Remove(l.(fifo := Inherit(l.fifo, req, next)), next))
  }

  datatype Choice = Nothing | Serve(write: bool, id: nat, batching: nat, starved: nat)

  /** `dispatch_find_request`. */
  function Best(l: Lane, now: int): nat
    requires l.fifo != []
  {
    if l.fifo[0].key < now || l.next == None then l.fifo[0].id else l.next.value
  }

  function Choose(s: State, c: Config): Choice {
    var w := s.write.next.Some?;
    if s.Get(w).next.Some? && s.batching < c.batch then Serve(w, s.Get(w).next.value, s.batching + 1, s.starved)
    else if s.read.fifo != [] then
      if s.write.fifo != [] && c.Starve() <= s.starved then Serve(true, Best(s.write, s.now), 1, 0)
      else Serve(false, Best(s.read, s.now), 1, if s.write.fifo != [] then s.starved + 1 else s.starved)
    else if s.write.fifo != [] then Serve(true, Best(s.write, s.now), 1, 0)
    else Nothing
  }

  /** `deadline_dispatch_requests`. */
  function Call(s: State, c: Config): State {
    match Choose(s, c)
    case Nothing => s
    case Serve(w, id, batching, starved) => Move(s.(batching := batching, starved := starved), w, id)
  }

  // ---------------------------------------------------------------- Invariant

  ghost predicate NextOk(l: Lane) { l.next == None || Has(l.sort, l.next.value) }

  ghost predicate IndexOk(l: Lane, limit: int) {
    && Distinct(l.sort) && Strict(l.sort)
    && Distinct(l.fifo) && Ascending(l.fifo) && Bounded(l.fifo, limit)
    && Same(l.sort, l.fifo)
    && NextOk(l)
  }

  /** Each request is in one direction only, and a sent one in none. */
  ghost predicate Apart(s: State) {
    && (forall id: nat :: Has(s.read.sort, id) ==> !Has(s.write.sort, id))
    && (forall id: nat :: id in s.sent ==> !Has(s.read.sort, id) && !Has(s.write.sort, id))
    && forall i, j :: 0 <= i < j < |s.sent| ==> s.sent[i] != s.sent[j]
  }

  ghost predicate Inv(s: State, c: Config) {
    && IndexOk(s.read, s.now + c.readExpire) && IndexOk(s.write, s.now + c.writeExpire)
    && (s.read.next == None || s.write.next == None)
    && Apart(s)
    && s.nrSorted == |s.read.sort| + |s.write.sort|
    && s.starved <= c.Starve()
    && s.batching <= c.Batch()
  }

  /** The scheduler still has request `x`, or has sent it. */
  ghost predicate Known(s: State, x: nat) { Has(s.read.sort, x) || Has(s.write.sort, x) || x in s.sent }

  lemma {:induction false} RemoveOk(l: Lane, id: nat, limit: int)
    requires IndexOk(l, limit)
    ensures IndexOk(Remove(l, id), limit)
    ensures forall x: nat :: Has(Remove(l, id).sort, x) <==> Has(l.sort, x) && x != id
    ensures |Remove(l, id).sort| == |l.sort| - if Has(l.sort, id) then 1 else 0
  {
    hide Distinct, Ascending, Strict, Bounded, Has, Drop, Latter;
    DropOk(l.sort, id);
    DropOk(l.fifo, id);
    LatterHas(l.sort, id);
  }

  lemma {:induction false} MoveOk(s: State, c: Config, w: bool, id: nat)
    requires Inv(s, c) && Has(s.Get(w).sort, id)
    ensures Inv(Move(s, w, id), c)
    ensures forall x: nat :: Has(Move(s, w, id).Get(w).sort, x) <==> Has(s.Get(w).sort, x) && x != id
    ensures Move(s, w, id).Get(!w).sort == s.Get(!w).sort
    ensures forall x: nat :: Known(Move(s, w, id), x) <==> Known(s, x)
  {
    hide Distinct, Ascending, Strict, Bounded, Has, Drop, Latter, Remove, Same;
    var l := s.Get(w);
    LatterHas(l.sort, id);
    RemoveOk(l.(next := Latter(l.sort, id)), id, s.now + c.Expire(w));
    RemoveNext(l, id);
  }

  /** The batch never goes on with the request that was just sent. */
  lemma {:induction false} RemoveNext(l: Lane, id: nat)
    ensures Distinct(l.sort) ==> Remove(l.(next := Latter(l.sort, id)), id).next == Latter(l.sort, id)
  {
    if Distinct(l.sort) { LatterHas(l.sort, id); }
  }

  // ---------------------------------------------------------------- The indexes agree

  lemma {:induction false} InsertOk(l: Lane, id: nat, sector: int, limit: int)
    requires IndexOk(l, limit) && !Has(l.sort, id) && Alias(l.sort, sector) == None
    ensures IndexOk(Lane(Put(l.sort, Slot(l.sort, sector), Item(id, sector)), l.fifo + [Item(id, limit)], l.next),
                    limit)
    ensures forall x: nat :: Has(Put(l.sort, Slot(l.sort, sector), Item(id, sector)), x) <==> Has(l.sort, x) || x == id
  {
    hide Has, Distinct, Strict;
    var i := Slot(l.sort, sector);
    var x := Item(id, sector);
    var f := l.fifo + [Item(id, limit)];
    assert f == Put(l.fifo, |l.fifo|, Item(id, limit));
    PutDistinct(l.sort, i, x);
    PutDistinct(l.fifo, |l.fifo|, Item(id, limit));
    PutSorted(l.sort, x);
    forall y: nat ensures Has(Put(l.sort, i, x), y) <==> Has(l.sort, y) || y == id { PutHas(l.sort, i, x, y); }
    forall y: nat ensures Has(f, y) <==> Has(l.fifo, y) || y == id { PutHas(l.fifo, |l.fifo|, Item(id, limit), y); }
  }

  /** The state in which `Place` inserts: the alias, if any, has left. */
  function Cleared(s: State, w: bool, sector: int): State {
    var a := Alias(s.Get(w).sort, sector);
    if a.Some? then Move(s, w, a.value) else s
  }

  lemma {:induction false} ClearedOk(s: State, c: Config, w: bool, sector: int)
    requires Inv(s, c)
    ensures Inv(Cleared(s, w, sector), c) && Alias(Cleared(s, w, sector).Get(w).sort, sector) == None
    ensures forall x: nat :: Has(Cleared(s, w, sector).Get(w).sort, x) ==> Has(s.Get(w).sort, x)
    ensures Cleared(s, w, sector).Get(!w).sort == s.Get(!w).sort
    ensures forall x: nat :: x in Cleared(s, w, sector).sent ==> x in s.sent || Has(s.Get(w).sort, x)
    ensures forall x: nat :: Known(Cleared(s, w, sector), x) <==> Known(s, x)
  {
    hide Same, Distinct, Strict, Ascending, Bounded, Has, Find, Slot, Drop, Latter;
    var l := s.Get(w);
    assert IndexOk(l, s.now + c.Expire(w));
    var a := Alias(l.sort, sector);
    if a.Some? {
      AliasHas(l.sort, sector);
      NoSecondAlias(l.sort, sector);
      MoveOk(s, c, w, a.value);
    }
  }

  lemma {:induction false} AddOk(s: State, c: Config, w: bool, id: nat, sector: int)
    requires Inv(s, c) && !Has(s.read.sort, id) && !Has(s.write.sort, id) && id !in s.sent
    ensures Inv(Add(s, c, w, id, sector), c)
    ensures Has(Add(s, c, w, id, sector).Get(w).sort, id)
    ensures forall x: nat :: Known(Add(s, c, w, id, sector), x) <==> Known(s, x) || x == id
  {
    hide Same, Distinct, Strict, Ascending, Bounded, Has, Find, Slot, Drop, Latter, Move, Alias, IndexOk;
    var t := Cleared(s, w, sector);
    ClearedOk(s, c, w, sector);
    ClearedFields(s, w, sector);
    InsertOk(t.Get(w), id, sector, t.now + c.Expire(w));
  }

  lemma {:induction false} ClearedFields(s: State, w: bool, sector: int)
    ensures Cleared(s, w, sector).now == s.now
    ensures Cleared(s, w, sector).batching == s.batching && Cleared(s, w, sector).starved == s.starved
    ensures Cleared(s.(nrSorted := s.nrSorted + 1), w, sector) ==
            Cleared(s, w, sector).(nrSorted := Cleared(s, w, sector).nrSorted + 1)
  {
  }

  /** What a front merge leaves of its direction. */
  function Fronted(l: Lane, id: nat, sector: int): Lane {
    var rest := Drop(l.sort, id);
    var a := Alias(rest, sector);
    var t := if a.Some? then Lane(Drop(rest, a.value), Drop(l.fifo, a.value), Latter(rest, a.value))
             else Lane(rest, l.fifo, l.next);
    t.(sort := Put(t.sort, Slot(t.sort, sector), Item(id, sector)))
  }

  lemma {:induction false} FrontedOk(l: Lane, id: nat, sector: int, limit: int)
    requires IndexOk(l, limit) && Has(l.sort, id)
    ensures IndexOk(Fronted(l, id, sector), limit)
    ensures var a := Alias(Drop(l.sort, id), sector);
            && (a.Some? ==> a.value != id && Has(l.sort, a.value))
            && (forall x: nat :: Has(Fronted(l, id, sector).sort, x) <==> Has(l.sort, x) && a != Some(x))
            && |Fronted(l, id, sector).sort| == |l.sort| - if a.Some? then 1 else 0
  {
    hide Distinct, Strict, Ascending, Bounded, Has, Drop, Latter, Alias;
    var rest := Drop(l.sort, id);
    DropOk(l.sort, id);
    AliasHas(rest, sector);
    var a := Alias(rest, sector);
    var sort, fifo, next := rest, l.fifo, l.next;
    if a.Some? {
      DropOk(rest, a.value);
      DropOk(l.fifo, a.value);
      LatterHas(rest, a.value);
      NoSecondAlias(rest, sector);
      sort, fifo, next := Drop(rest, a.value), Drop(l.fifo, a.value), Latter(rest, a.value);
    }
    var i, x := Slot(sort, sector), Item(id, sector);
    PutDistinct(sort, i, x);
    PutSorted(sort, x);
    forall y: nat ensures Has(Put(sort, i, x), y) <==> Has(sort, y) || y == id { PutHas(sort, i, x, y); }
  }

  /** What `Front` does to the state, in terms of `Fronted`. */
  lemma {:induction false} FrontIs(s: State, w: bool, id: nat, sector: int)
    requires Distinct(s.Get(w).sort)
    ensures var l, t := s.Get(w), Front(s, w, id, sector);
            var a := Alias(Drop(l.sort, id), sector);
            && t.Get(w) == Fronted(l, id, sector) && (a == None ==> t.Get(w).next == l.next)
            && t.Get(!w) == (if a.Some? then s.Get(!w).(next := None) else s.Get(!w))
            && t.sent == (if a.Some? then s.sent + [a.value] else s.sent)
            && t.nrSorted == s.nrSorted - (if a.Some? then 1 else 0)
            && t.batching == s.batching && t.starved == s.starved && t.now == s.now
  {
    var l := s.Get(w);
    var rest := Drop(l.sort, id);
    var a := Alias(rest, sector);
    if a.Some? {
      DropOk(l.sort, id);
      RemoveNext(l.(sort := rest), a.value);
    }
  }

  lemma {:induction false} FrontOk(s: State, c: Config, w: bool, id: nat, sector: int)
    requires Inv(s, c) && Has(s.Get(w).sort, id)
    ensures Inv(Front(s, w, id, sector), c) && Has(Front(s, w, id, sector).Get(w).sort, id)
    ensures forall x: nat :: Known(Front(s, w, id, sector), x) <==> Known(s, x)
  {
    hide Distinct, Strict, Ascending, Bounded, Has, Drop, Latter, Alias, Front, Fronted, Same;
    FrontIs(s, w, id, sector);
    FrontedOk(s.Get(w), id, sector, s.now + c.Expire(w));
  }

  // ---------------------------------------------------------------- Merging two requests

  /** Keys of an ascending list stay ascending when an item moves up behind one with the same key. */
  lemma {:induction false} InheritOk(f: seq<Item>, req: nat, next: nat, limit: int)
    requires Distinct(f) && Ascending(f) && Bounded(f, limit) && Has(f, req) && Has(f, next) && req != next
    requires Find(f, req) < |f| && Find(f, next) < |f|
    ensures var g := Inherit(f, req, next);
            && Distinct(g) && Ascending(g) && Bounded(g, limit) && |g| == |f|
            && (forall x: nat :: Has(g, x) <==> Has(f, x))
  {
    var due := f[Find(f, next)].key;
    if due < f[Find(f, req)].key {
      var h := Drop(f, req);
      DropOk(f, req);
      FindHas(h, next);
      var i := Find(h, next);
      DropEarlier(f, req, next);
      PutDistinct(h, i + 1, Item(req, due));
      PutBehind(h, i, Item(req, due));
      forall x: nat ensures Has(Put(h, i + 1, Item(req, due)), x) <==> Has(h, x) || x == req {
        PutHas(h, i + 1, Item(req, due), x);
      }
    }
  }

  lemma {:induction false} DropEarlier(f: seq<Item>, req: nat, next: nat)
    requires Distinct(f) && Ascending(f) && Find(f, req) < |f| && Find(f, next) < |f|
    requires f[Find(f, next)].key < f[Find(f, req)].key
    ensures Find(f, next) < Find(f, req) && Find(Drop(f, req), next) == Find(f, next)
    ensures Find(f, next) < |Drop(f, req)| && Drop(f, req)[Find(f, next)] == f[Find(f, next)]
  {
    var i, j := Find(f, next), Find(f, req);
    var g := Drop(f, req);
    assert g == Cut(f, j);
    assert forall k :: 0 <= k < j ==> g[k] == f[k];
    assert g[i].id == next;
  }

  lemma {:induction false} PutBehind(h: seq<Item>, i: nat, x: Item)
    requires i < |h| && Ascending(h) && x.key == h[i].key
    ensures Ascending(Put(h, i + 1, x))
    ensures forall limit :: Bounded(h, limit) ==> Bounded(Put(h, i + 1, x), limit)
  {
    var t := Put(h, i + 1, x);
    assert forall k :: 0 <= k < |t| ==> t[k] == if k <= i then h[k] else if k == i + 1 then x else h[k - 1];
  }

  lemma {:induction false} JoinOk(s: State, c: Config, w: bool, req: nat, next: nat)
    requires Inv(s, c) && Has(s.Get(w).sort, req) && Has(s.Get(w).sort, next) && req != next
    ensures Find(s.Get(w).fifo, req) < |s.Get(w).fifo| && Find(s.Get(w).fifo, next) < |s.Get(w).fifo|
    ensures Inv(Join(s, w, req, next), c)
    ensures forall x: nat :: Known(Join(s, w, req, next), x) <==> Known(s, x) && x != next
  {
    hide Distinct, Strict, Ascending, Bounded, Has, Drop, Latter, Inherit, Remove;
    var l := s.Get(w);
    FindHas(l.fifo, req);
    FindHas(l.fifo, next);
    var limit := s.now + c.Expire(w);
    InheritOk(l.fifo, req, next, limit);
    var m := l.(fifo := Inherit(l.fifo, req, next));
    RemoveOk(m, next, limit);
    RemoveNull(m, next);
  }

  lemma {:induction false} RemoveNull(l: Lane, id: nat)
    ensures l.next == None ==> Remove(l, id).next == None
  {
  }

  // ---------------------------------------------------------------- Dispatching

  lemma {:induction false} BestHas(l: Lane, now: int, limit: int)
    requires IndexOk(l, limit) && l.fifo != []
    ensures Has(l.sort, Best(l, now))
  {
    assert Has(l.fifo, l.fifo[0].id);
  }

  /** The scheduler picks a request it has, unless it has none; the counters stay in range. */
  lemma {:induction false} ChooseOk(s: State, c: Config)
    requires Inv(s, c)
    ensures Choose(s, c) == Nothing <==> s.nrSorted == 0
    ensures var r := Choose(s, c);
            r.Serve? ==> && Has(s.Get(r.write).sort, r.id)
                         && r.starved <= c.Starve() && r.batching <= c.Batch()
  {
    hide Distinct, Strict, Ascending, Bounded, Has;
    if s.read.fifo != [] { BestHas(s.read, s.now, s.now + c.readExpire); }
    if s.write.fifo != [] { BestHas(s.write, s.now, s.now + c.writeExpire); }
    NextLives(s.read, s.now + c.readExpire);
    NextLives(s.write, s.now + c.writeExpire);
  }

  lemma {:induction false} NextLives(l: Lane, limit: int)
    requires IndexOk(l, limit)
    ensures l.next.Some? ==> l.sort != []
  {
  }

  lemma {:induction false} CallOk(s: State, c: Config)
    requires Inv(s, c)
    ensures Inv(Call(s, c), c)
    ensures Call(s, c).nrSorted == s.nrSorted - if s.nrSorted == 0 then 0 else 1
    ensures forall x: nat :: Known(Call(s, c), x) <==> Known(s, x)
  {
    hide Choose, IndexOk, Apart, Has, Move;
    ChooseOk(s, c);
    match Choose(s, c)
    case Nothing =>
    case Serve(w, id, batching, starved) =>
      var t := s.(batching := batching, starved := starved);
      CountersOnly(s, c, batching, starved);
      MoveOk(t, c, w, id);
      MoveFields(t, w, id);
  }

  lemma {:induction false} CountersOnly(s: State, c: Config, batching: nat, starved: nat)
    requires Inv(s, c) && starved <= c.Starve() && batching <= c.Batch()
    ensures Inv(s.(batching := batching, starved := starved), c)
  {
  }

  lemma {:induction false} MoveFields(s: State, w: bool, id: nat)
    ensures var t := Move(s, w, id);
            && t.batching == s.batching && t.starved == s.starved && t.now == s.now
            && t.nrSorted == s.nrSorted - 1 && t.sent == s.sent + [id]
            && t.Get(w).fifo == Drop(s.Get(w).fifo, id) && t.Get(!w).fifo == s.Get(!w).fifo
            && t.Get(!w).sort == s.Get(!w).sort
  {
  }

  // ---------------------------------------------------------------- Runs

  datatype Event =
    | Adds(write: bool, id: nat, sector: int)
    | Fronts(write: bool, id: nat, sector: int)
    | Joins(write: bool, req: nat, next: nat)
    | Calls
    | Ticks(d: nat)

  /** Added requests are new; merges are between requests the scheduler holds in that direction. */
  ghost predicate Enabled(s: State, e: Event) {
    match e
    case Adds(_, id, _) => !Known(s, id)
    case Fronts(w, id, _) => Has(s.Get(w).sort, id)
    case Joins(w, req, next) =>
      && Has(s.Get(w).sort, req) && Has(s.Get(w).sort, next) && req != next
      && Find(s.Get(w).fifo, req) < |s.Get(w).fifo| && Find(s.Get(w).fifo, next) < |s.Get(w).fifo|
    case Calls => true
    case Ticks(_) => true
  }

  ghost function Next(s: State, c: Config, e: Event): State
    requires Enabled(s, e)
  {
    match e
    case Adds(w, id, sector) => Add(s, c, w, id, sector)
    case Fronts(w, id, sector) => Front(s, w, id, sector)
    case Joins(w, req, next) => Join(s, w, req, next)
    case Calls => Call(s, c)
    case Ticks(d) => s.(now := s.now + d)
  }

  const START := State(Lane([], [], None), Lane([], [], None), 0, 0, 0, [], 0)

  ghost predicate IsRun(run: seq<State>, c: Config, events: seq<Event>) {
    && |run| == |events| + 1
    && forall i :: 0 <= i < |events| ==> Enabled(run[i], events[i]) && run[i + 1] == Next(run[i], c, events[i])
  }

  /** Every step keeps the indexes in agreement, and no request is lost or sent twice: only an absorbed one
      disappears. */
  lemma {:induction false} StepKeeps(s: State, c: Config, e: Event)
    requires Inv(s, c) && Enabled(s, e)
    ensures Inv(Next(s, c, e), c)
    ensures forall x: nat :: Known(Next(s, c, e), x) <==>
                             (Known(s, x) || (e.Adds? && x == e.id)) && !(e.Joins? && x == e.next)
  {
    hide Add, Front, Join, Call, Has, IndexOk;
    match e
    case Adds(w, id, sector) => AddOk(s, c, w, id, sector);
    case Fronts(w, id, sector) => FrontOk(s, c, w, id, sector);
    case Joins(w, req, next) => JoinOk(s, c, w, req, next);
    case Calls => CallOk(s, c);
    case Ticks(d) => TickOk(s, c, d);
  }

  lemma {:induction false} TickOk(s: State, c: Config, d: nat)
    requires Inv(s, c)
    ensures Inv(s.(now := s.now + d), c)
  {
  }

  lemma {:induction false} RunsAgree(run: seq<State>, c: Config, events: seq<Event>, i: nat)
    requires IsRun(run, c, events) && i < |run| && Inv(run[0], c)
    ensures Inv(run[i], c)
  {
    hide Inv, Enabled, Next;
    if 0 < i {
      RunsAgree(run, c, events, i - 1);
      StepKeeps(run[i - 1], c, events[i - 1]);
    }
  }

  lemma {:induction false} StartOk(c: Config)
    ensures Inv(START, c)
  {
  }

  /** Some run leads from the empty scheduler to `s`. */
  ghost predicate Reached(s: State, c: Config) {
    exists run: seq<State>, events: seq<Event> :: IsRun(run, c, events) && run[0] == START && run[|run| - 1] == s
  }

  lemma {:induction false} ReachedStart(c: Config)
    ensures Reached(START, c)
  {
    assert IsRun([START], c, []);
  }

  lemma {:induction false} ReachedNext(s: State, c: Config, e: Event)
    requires Reached(s, c) && Enabled(s, e)
    ensures Reached(Next(s, c, e), c)
  {
    hide Enabled, Next;
    var run: seq<State>, events: seq<Event> :| IsRun(run, c, events) && run[0] == START && run[|run| - 1] == s;
    var run', events' := run + [Next(s, c, e)], events + [e];
    forall i | 0 <= i < |events'| ensures Enabled(run'[i], events'[i]) && run'[i + 1] == Next(run'[i], c, events'[i]) {
      if i < |events| { assert run'[i] == run[i] && run'[i + 1] == run[i + 1]; }
    }
    assert IsRun(run', c, events');
  }

  lemma {:induction false} ReachedOk(s: State, c: Config)
    requires Reached(s, c)
    ensures Inv(s, c)
  {
    hide Inv;
    var run: seq<State>, events: seq<Event> :| IsRun(run, c, events) && run[0] == START && run[|run| - 1] == s;
    StartOk(c);
    RunsAgree(run, c, events, |run| - 1);
  }

  // ---------------------------------------------------------------- The scheduler

  /** The descent of `elv_rb_add` and `elv_rb_find`: the slot of `sector`, and who already starts there. */
  method Descend(sort: seq<Item>, sector: int) returns (slot: nat, found: Option<nat>)
    requires Strict(sort)
    ensures slot == Slot(sort, sector) && found == Alias(sort, sector)
    ensures found == None <==> forall i :: 0 <= i < |sort| ==> sort[i].key != sector
  {
    slot := 0;
    while slot < |sort| && sort[slot].key < sector
      invariant 0 <= slot <= |sort|
      invariant forall i :: 0 <= i < slot ==> sort[i].key < sector
    {
      slot := slot + 1;
    }
    AliasHas(sort, sector);
    found := if slot < |sort| && sort[slot].key == sector then Some(sort[slot].id) else None;
  }

  /** `struct deadline_data` with the elevator's `nr_sorted` and dispatch list. */
  class DeadlineData {
    const config: Config
    var read: Lane
    var write: Lane
    var batching: nat
    var starved: nat
    var nrSorted: int
    var sent: seq<nat>
    var now: int

    ghost function View(): State
      reads this
    {
      State(read, write, batching, starved, nrSorted, sent, now)
    }

    ghost predicate Valid()
      reads this
    {
      Inv(View(), config)
    }

    constructor (c: Config)
      ensures View() == START && config == c && Valid()
    {
      config := c;
      read, write := Lane([], [], None), Lane([], [], None);
      batching, starved, nrSorted, sent, now := 0, 0, 0, [], 0;
      new;
      StartOk(c);
    }

    method Store(w: bool, l: Lane)
      modifies this
      ensures View() == old(View()).Set(w, l)
    {
      if w { write := l; } else { read := l; }
    }

    /** `deadline_move_request`. */
    method MoveRequest(w: bool, id: nat)
      modifies this
      ensures View() == Move(old(View()), w, id)
    {
      var l := if w then write else read;
      read := read.(next := None);
      write := write.(next := None);
      l := l.(next := Latter(l.sort, id));
      l := Lane(Drop(l.sort, id), Drop(l.fifo, id), if l.next == Some(id) then Latter(l.sort, id) else l.next);
      nrSorted := nrSorted - 1;
      sent := sent + [id];
      Store(w, l);
    }

    /** `deadline_add_rq_rb`: the loop ends after at most one alias. */
    method AddRqRb(w: bool, id: nat, sector: int)
      requires Strict(View().Get(w).sort) && Distinct(View().Get(w).sort)
      modifies this
      ensures View() == Place(old(View()), w, id, sector)
    {
      hide Move, Strict, Distinct;
      var slot, alias := Descend(if w then write.sort else read.sort, sector);
      ghost var s := View();
      assert View() == s && alias == Alias(s.Get(w).sort, sector);
      while alias.Some?
        invariant View() == s || View() == Cleared(s, w, sector)
        invariant alias.Some? ==> View() == s
        invariant alias == None ==> View() == Cleared(s, w, sector)
        invariant alias == Alias(View().Get(w).sort, sector) && slot == Slot(View().Get(w).sort, sector)
        decreases if alias.Some? then 1 else 0
      {
        MoveRequest(w, alias.value);
        AliasLeaves(s, w, sector);
        slot, alias := Descend(if w then write.sort else read.sort, sector);
      }
      var l := if w then write else read;
      Store(w, l.(sort := Put(l.sort, slot, Item(id, sector))));
    }

    /** `deadline_add_request`. */
    method AddRequest(w: bool, id: nat, sector: int)
      requires Valid() && !Known(View(), id)
      modifies this
      ensures View() == Add(old(View()), config, w, id, sector) && Valid()
    {
      hide Place, Inv;
      AddOk(View(), config, w, id, sector) by { KnownNot(View(), id); }
      LaneSorted(View(), config, w);
      nrSorted := nrSorted + 1;
      AddRqRb(w, id, sector);
      var l := if w then write else read;
      Store(w, l.(fifo := l.fifo + [Item(id, now + config.Expire(w))]));
    }

    /** `deadline_merged_request` for a front merge. */
    method MergedRequest(w: bool, id: nat, sector: int)
      requires Valid() && Has(View().Get(w).sort, id)
      modifies this
      ensures View() == Front(old(View()), w, id, sector) && Valid()
    {
      hide Place, Inv, Has;
      FrontOk(View(), config, w, id, sector);
      LaneSorted(View(), config, w);
      var l := if w then write else read;
      DropOk(l.sort, id);
      Store(w, l.(sort := Drop(l.sort, id)));
      AddRqRb(w, id, sector);
    }

    /** `deadline_merged_requests`. */
    method MergedRequests(w: bool, req: nat, next: nat)
      requires Valid() && Has(View().Get(w).sort, req) && Has(View().Get(w).sort, next) && req != next
      modifies this
      ensures old(Enabled(View(), Joins(w, req, next)))
      ensures View() == old(Join(View(), w, req, next)) && Valid()
    {
      hide Inv, Has, Drop, Latter, Put;
      JoinOk(View(), config, w, req, next);
      var l := if w then write else read;
      var due := l.fifo[Find(l.fifo, next)].key;
      if due < l.fifo[Find(l.fifo, req)].key {
        var g := Drop(l.fifo, req);
        var i := Find(g, next) + 1;
        l := l.(fifo := Put(g, if i <= |g| then i else |g|, Item(req, due)));
      }
      nrSorted := nrSorted - 1;
      Store(w, Lane(Drop(l.sort, next), Drop(l.fifo, next),
                    if l.next == Some(next) then Latter(l.sort, next) else l.next));
    }

    /** `deadline_dispatch_requests`: serves a request exactly if there is one. */
    method DispatchRequests() returns (served: bool)
      requires Valid()
      modifies this
      ensures View() == Call(old(View()), config) && Valid()
      ensures served <==> old(nrSorted) > 0
      ensures nrSorted == old(nrSorted) - (if served then 1 else 0)
    {
      hide Inv, Move;
      CallOk(View(), config);
      ChooseOk(View(), config);
      SortedCount(View(), config);
      var w := write.next.Some?;
      var rq := if w then write.next else read.next;
      if rq.Some? && batching < config.batch {
        batching := batching + 1;
        MoveRequest(w, rq.value);
        return true;
      }
      if read.fifo != [] {
        w := false;
        if write.fifo != [] {
          w := config.Starve() <= starved;
          starved := starved + 1;
        }
      } else if write.fifo != [] {
        w := true;
      } else {
        return false;
      }
      if w { starved := 0; }
      var l := if w then write else read;
      batching := 1;
      MoveRequest(w, if l.fifo[0].key < now || l.next == None then l.fifo[0].id else l.next.value);
      served := true;
    }

    /** `elv_drain_elevator`: the loop ends, and ends with nothing sorted. */
    method Drain()
      requires Valid()
      modifies this
      ensures Valid() && nrSorted == 0
      ensures forall x: nat :: Known(View(), x) <==> old(Known(View(), x))
    {
      hide Inv, Known;
      SortedCount(View(), config);
      var more := true;
      while more
        invariant Valid() && 0 <= nrSorted
        invariant !more ==> nrSorted == 0
        invariant forall x: nat :: Known(View(), x) <==> old(Known(View(), x))
        decreases nrSorted, more
      {
        CallOk(View(), config);
        more := DispatchRequests();
      }
    }
  }

  lemma {:induction false} AliasLeaves(s: State, w: bool, sector: int)
    requires Strict(s.Get(w).sort) && Distinct(s.Get(w).sort) && Alias(s.Get(w).sort, sector).Some?
    ensures var l := Move(s, w, Alias(s.Get(w).sort, sector).value).Get(w);
            Strict(l.sort) && Distinct(l.sort) && Alias(l.sort, sector) == None
  {
    var a := Alias(s.Get(w).sort, sector).value;
    DropOk(s.Get(w).sort, a);
    NoSecondAlias(s.Get(w).sort, sector);
  }

  lemma {:induction false} KnownNot(s: State, id: nat)
    requires !Known(s, id)
    ensures !Has(s.read.sort, id) && !Has(s.write.sort, id) && id !in s.sent
  {
  }

  lemma {:induction false} LaneSorted(s: State, c: Config, w: bool)
    requires Inv(s, c)
    ensures Strict(s.Get(w).sort) && Distinct(s.Get(w).sort)
  {
  }

  lemma {:induction false} SortedCount(s: State, c: Config)
    requires Inv(s, c)
    ensures 0 <= s.nrSorted == |s.read.fifo| + |s.write.fifo|
  {
  }
}
