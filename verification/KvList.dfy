/** Listing the keys of a KV store page by page. */
module KvList {
  import opened Text
  import opened CacheOptions

  const STRONG := 0
  const EVENTUAL := 1

  function ConsistencyString(m: nat): string {
    if m == STRONG then "strong" else if m == EVENTUAL then "eventual" else "unknown"
  }

  function ConsistencyMode(s: string): nat {
    if s == "eventual" then EVENTUAL else STRONG
  }

  /** A mode survives its name exactly when it has one; any other becomes strong. */
  lemma {:induction false} ModeSurvives(m: nat)
    ensures ConsistencyMode(ConsistencyString(m)) == m <==> m <= EVENTUAL
    ensures m > EVENTUAL ==> ConsistencyMode(ConsistencyString(m)) == STRONG
    ensures ConsistencyString(STRONG) == "strong" && ConsistencyString(EVENTUAL) == "eventual"
    ensures ConsistencyString(m) != ""
  {
    assert ConsistencyString(m)[0] == if m == STRONG then 's' else if m == EVENTUAL then 'e' else 'u';
  }

  /** The keys with a prefix, in order. */
  function Matching(keys: seq<string>, prefix: string): seq<string> {
    if keys == [] then []
    else (if prefix <= keys[0] then [keys[0]] else []) + Matching(keys[1..], prefix)
  }

  lemma {:induction false} MatchingConcat(a: seq<string>, b: seq<string>, prefix: string)
    ensures Matching(a + b, prefix) == Matching(a, prefix) + Matching(b, prefix)
  {
    if a == [] {
      assert a + b == b;
    } else {
      assert (a + b)[0] == a[0] && (a + b)[1..] == a[1..] + b;
      MatchingConcat(a[1..], b, prefix);
      ConcatAssoc(if prefix <= a[0] then [a[0]] else [], Matching(a[1..], prefix), Matching(b, prefix));
    }
  }

  /** Two stretches of the keys, one after the other. */
  lemma {:induction false} MatchingJoin(keys: seq<string>, lo: nat, mid: nat, hi: nat, prefix: string)
    requires lo <= mid <= hi <= |keys|
    ensures Matching(keys[lo..hi], prefix) == Matching(keys[lo..mid], prefix) + Matching(keys[mid..hi], prefix)
  {
    assert keys[lo..hi] == keys[lo..mid] + keys[mid..hi];
    MatchingConcat(keys[lo..mid], keys[mid..hi], prefix);
  }

  lemma {:induction false} MatchingNext(keys: seq<string>, lo: nat, i: nat, prefix: string)
    requires lo <= i < |keys|
    ensures Matching(keys[lo..i + 1], prefix)
            == Matching(keys[lo..i], prefix) + if prefix <= keys[i] then [keys[i]] else []
  {
    var one := keys[i..i + 1];
    assert one[0] == keys[i] && one[1..] == [];
    assert Matching(one, prefix) == if prefix <= keys[i] then [keys[i]] else [];
    MatchingJoin(keys, lo, i, i + 1, prefix);
  }

  // ---- the host -----------------------------------------------------------------------

  datatype Conf = Conf(mode: nat, limit: u32, prefix: string, cursor: string)

  datatype Meta = Meta(limit: u32, next: string, prefix: string, mode: string)

  datatype Page = Page(data: seq<string>, meta: Meta)

  datatype Reply = Listed(page: Page) | Failed(code: int)

  /** A store of fixed keys, with a cursor for each. A page has at least one key and at most the limit,
      unless no matching key is left; the last page may or may not say that it is the last. */
  class Store {
    const keys: seq<string>
    const cursors: seq<string>
    const reliable: bool   // never fails

    ghost predicate Valid() {
      && |cursors| == |keys|
      && (forall i :: 0 <= i < |cursors| ==> cursors[i] != "")
      && (forall i, j :: 0 <= i < j < |cursors| ==> cursors[i] != cursors[j])
    }

    constructor (keys: seq<string>, cursors: seq<string>, reliable: bool)
      ensures this.keys == keys && this.cursors == cursors && this.reliable == reliable
    {
      this.keys, this.cursors, this.reliable := keys, cursors, reliable;
    }

    /** Where a cursor resumes. */
    ghost predicate At(cursor: string, pos: int) {
      if cursor == "" then pos == 0 else 0 <= pos < |keys| == |cursors| && cursors[pos] == cursor
    }

    /** A page that covers the keys in [pos, upTo). */
    ghost predicate Covers(c: Conf, page: Page, pos: int, upTo: int) {
      && 0 <= pos <= upTo <= |keys| && page.data == Matching(keys[pos..upTo], c.prefix)
      && (c.limit > 0 ==> |page.data| <= c.limit)
      && (page.data == [] ==> Matching(keys[pos..], c.prefix) == [])
      && (if page.meta.next == "" then Matching(keys[upTo..], c.prefix) == [] else At(page.meta.next, upTo))
      && page.meta.prefix == c.prefix && page.meta.mode == ConsistencyString(c.mode)
      && (c.limit > 0 ==> page.meta.limit == c.limit)
    }

    method Resume(cursor: string, ghost pos: nat) returns (start: nat)
      requires Valid() && At(cursor, pos)
      ensures start == pos
    {
      start := 0;
      if cursor == "" { return; }
      while cursors[start] != cursor
        invariant 0 <= start <= pos
        decreases pos - start
      {
        start := start + 1;
      }
    }

    /** Keys from `start` on, until there are `size` of them. */
    method Collect(start: nat, size: nat, prefix: string) returns (data: seq<string>, upTo: nat)
      requires start <= |keys| && size > 0
      ensures start <= upTo <= |keys| && data == Matching(keys[start..upTo], prefix) && |data| <= size
      ensures data == [] ==> upTo == |keys|
    {
      data, upTo := [], start;
      assert keys[start..start] == [];
      while upTo < |keys| && |data| < size
        invariant start <= upTo <= |keys| && |data| <= size
        invariant data == Matching(keys[start..upTo], prefix)
      {
        MatchingNext(keys, start, upTo, prefix);
        if prefix <= keys[upTo] { data := data + [keys[upTo]]; }
        upTo := upTo + 1;
      }
    }

    method List(c: Conf, ghost pos: nat) returns (r: Reply, ghost upTo: int)
      requires Valid() && At(c.cursor, pos)
      ensures r.Listed? ==> Covers(c, r.page, pos, upTo)
      ensures r.Failed? ==> !reliable
    {
      var fails: bool := *;
      var code: int := *;
      if fails && !reliable { return Failed(code), pos; }
      var start := Resume(c.cursor, pos);
      var wanted: int := *;
      var size := if wanted > 0 && (c.limit == 0 || wanted < c.limit) then wanted
                  else if c.limit > 0 then c.limit else 1;
      var data, i := Collect(start, size, c.prefix);
      upTo := i;
      assert keys[|keys|..] == [];
      assert i == |keys| ==> keys[start..i] == keys[start..];
      var limit: int := *;
      var echoed := if c.limit > 0 then c.limit else if 0 <= limit < U32_END then limit else 0;
      var next := if i < |keys| then cursors[i] else "";
      r := Listed(Page(data, Meta(echoed, next, c.prefix, ConsistencyString(c.mode))));
    }
  }

  // ---- the iterator -------------------------------------------------------------------------

  datatype Config = Config(mode: nat, limit: u32, prefix: string, cursor: string)

  /** ListIter. The next request is made from what the page says of itself. */
  class ListIter {
    const store: Store
    var page: Page
    var err: Option<int>
    ghost const config: Config
    ghost var pos: int          // how far the pages yielded so far reach

    ghost predicate Valid()
      reads this
    {
      && store.Valid() && 0 <= pos <= |store.keys|
      && page.meta.prefix == config.prefix && page.meta.mode != ""
      && ConsistencyMode(page.meta.mode) == ConsistencyMode(ConsistencyString(config.mode))
      && (config.limit > 0 ==> page.meta.limit == config.limit)
      && if Ended() then Matching(store.keys[pos..], config.prefix) == [] else store.At(page.meta.next, pos)
    }

    /** The page says that it is the last. */
    predicate Ended()
      reads this
    {
      page.meta.next == "" && page.data != []
    }

    /** Store.List */
    constructor (store: Store, config: Config, ghost pos: int)
      requires store.Valid() && 0 <= pos <= |store.keys| && store.At(config.cursor, pos)
      ensures Valid() && this.store == store && this.config == config && this.pos == pos && err.None?
    {
      ModeSurvives(config.mode);
      this.store, this.config, this.pos := store, config, pos;
      page := Page([], Meta(config.limit, config.cursor, config.prefix, ConsistencyString(config.mode)));
      err := None;
    }

    /** The request for the next page. */
    function Request(): (c: Conf)
      requires Valid()
      reads this
      ensures c.prefix == config.prefix && c.cursor == page.meta.next && c.limit == page.meta.limit
      ensures c.mode == ConsistencyMode(ConsistencyString(config.mode))
    {
      Conf(ConsistencyMode(page.meta.mode), page.meta.limit, page.meta.prefix, page.meta.next)
    }

    /** Next: true with a page of the keys that come next; false at the end, without a call if the last page
        said that it was the last; false for ever after an error. */
    method Next() returns (more: bool, ghost calls: nat)
      requires Valid()
      modifies this`page, this`err, this`pos
      ensures Valid() && calls <= 1
      ensures old(err.Some? || Ended()) ==> !more && calls == 0
      ensures more ==>
                && err.None? && page.data != [] && old(pos) < pos
                && page.data == Matching(store.keys[old(pos)..pos], config.prefix)
                && (config.limit > 0 ==> |page.data| <= config.limit)
      ensures !more ==> page == old(page) && pos == old(pos)
      ensures !more && err.None? ==> Matching(store.keys[pos..], config.prefix) == []
      ensures old(err).Some? ==> err == old(err)
      ensures err.Some? ==> old(err).Some? || !store.reliable
    {
      calls := 0;
      if err.Some? { return false, 0; }
      if page.meta.next == "" && |page.data| != 0 { return false, 0; }
      var r;
      ghost var upTo;
      r, upTo := store.List(Request(), pos);
      calls := 1;
      if r.Failed? {
        err := Some(r.code);
        return false, calls;
      }
      if |r.page.data| == 0 { return false, calls; }
      ModeSurvives(Request().mode);
      page := r.page;
      pos := upTo;
      assert store.keys[upTo..upTo] == [];
      return true, calls;
    }
  }

  /** The loop a caller writes around Next and Page: every matching key from the cursor on, once, in order,
      whatever the sizes of the pages; without the rest only when there is an error. */
  method ListAll(store: Store, config: Config, ghost start: int) returns (all: seq<string>, err: Option<int>)
    requires store.Valid() && 0 <= start <= |store.keys| && store.At(config.cursor, start)
    ensures all <= Matching(store.keys[start..], config.prefix)
    ensures err.None? ==> all == Matching(store.keys[start..], config.prefix)
    ensures err.Some? ==> !store.reliable
  {
    var it := new ListIter(store, config, start);
    all := [];
    var more := true;
    assert store.keys[start..start] == [];
    while more
      invariant it.Valid() && it.store == store && it.config == config && fresh(it) && start <= it.pos
      invariant all == Matching(store.keys[start..it.pos], config.prefix)
      invariant it.err.Some? ==> !store.reliable
      invariant !more && it.err.None? ==> Matching(store.keys[it.pos..], config.prefix) == []
      decreases |store.keys| - it.pos, more
    {
      ghost var was := it.pos;
      var found, _ := it.Next();
      more := found;
      if more {
        MatchingJoin(store.keys, start, was, it.pos, config.prefix);
        all := all + it.page.data;
      }
    }
    err := it.err;
    MatchingJoin(store.keys, start, it.pos, |store.keys|, config.prefix);
    assert store.keys[start..|store.keys|] == store.keys[start..];
    assert store.keys[it.pos..|store.keys|] == store.keys[it.pos..];
  }
}
