/** The store: maps of sections and keys with a load order, kept in step with an ordered list of
    sections; loading it from text and printing it. */
module IniStore {
  import opened Options
  import opened CStrings
  import opened Sequences
  import opened IniText
  import opened IniRoundTrip
  import opened IniParser

  /** A key with its value, and a section with its keys, both under their folded names; `order` tells
      which was loaded first. */
  datatype KeyRec = KeyRec(name: string, order: nat, val: string)
  datatype SectionRec = SectionRec(name: string, order: nat, keys: map<string, KeyRec>)

  // ---------- names in load order ----------

  /** The names of a map in the order of their numbers, all up to `last`. */
  predicate Ranked(names: seq<string>, orders: map<string, nat>, last: nat) {
    && (forall i :: 0 <= i < |names| ==> names[i] in orders && orders[names[i]] <= last)
    && (forall i, j :: 0 <= i < j < |names| ==> orders[names[i]] < orders[names[j]])
    && (forall f :: f in orders ==> f in names)
  }

  lemma RankedNext(names: seq<string>, orders: map<string, nat>, last: nat, f: string)
    requires Ranked(names, orders, last) && f !in orders
    ensures Ranked(names + [f], orders[f := last + 1], last + 1)
  {
    var names', orders' := names + [f], orders[f := last + 1];
    forall g | g in orders' ensures g in names' {
      assert names'[|names|] == f;
      if g in names {
        var i :| 0 <= i < |names| && names[i] == g;
        assert names'[i] == g;
      }
    }
  }

  function KeyNames(noCase: bool, keys: seq<(string, string)>): (r: seq<string>)
    ensures |r| == |keys|
  {
    seq(|keys|, i requires 0 <= i < |keys| => Fold(noCase, keys[i].0))
  }

  function KeyOrders(recs: map<string, KeyRec>): map<string, nat> {
    map f | f in recs :: recs[f].order
  }

  /** The keys of a section are those of the map, in load order, with their values. */
  predicate KeysOrdered(noCase: bool, recs: map<string, KeyRec>, keys: seq<(string, string)>, last: nat) {
    && Ranked(KeyNames(noCase, keys), KeyOrders(recs), last)
    && forall i :: 0 <= i < |keys| ==>
         var f := Fold(noCase, keys[i].0);
         f in recs && recs[f].name == keys[i].0 && recs[f].val == keys[i].1
  }

  function SectionNames(noCase: bool, view: seq<Section>): (r: seq<string>)
    ensures |r| == |view|
  {
    seq(|view|, i requires 0 <= i < |view| => Fold(noCase, view[i].name))
  }

  function SectionOrders(data: map<string, SectionRec>): map<string, nat> {
    map f | f in data :: data[f].order
  }

  predicate SectionHeld(noCase: bool, data: map<string, SectionRec>, s: Section, last: nat) {
    var f := Fold(noCase, s.name);
    f in data && data[f].name == s.name && KeysOrdered(noCase, data[f].keys, s.keys, last)
  }

  predicate Ordered(noCase: bool, data: map<string, SectionRec>, view: seq<Section>, last: nat) {
    && Ranked(SectionNames(noCase, view), SectionOrders(data), last)
    && forall i :: 0 <= i < |view| ==> SectionHeld(noCase, data, view[i], last)
  }

  // ---------- one key, one section more ----------

  lemma KeyPlace(noCase: bool, recs: map<string, KeyRec>, keys: seq<(string, string)>, last: nat, key: string)
    requires KeysOrdered(noCase, recs, keys, last)
    ensures Fold(noCase, key) in recs <==> KeyIndex(noCase, keys, key) < |keys|
  {
    hide Fold;
    var f, names := Fold(noCase, key), KeyNames(noCase, keys);
    if f in recs {
      assert f in KeyOrders(recs);
      var i :| 0 <= i < |names| && names[i] == f;
      assert Same(noCase, keys[i].0, key);
    }
  }

  lemma SectionPlace(noCase: bool, data: map<string, SectionRec>, view: seq<Section>, last: nat, name: string)
    requires Ordered(noCase, data, view, last)
    ensures Fold(noCase, name) in data <==> SectionIndex(noCase, view, name) < |view|
  {
    hide Fold, KeysOrdered;
    var f, names := Fold(noCase, name), SectionNames(noCase, view);
    forall s | s in view ensures SectionHeld(noCase, data, s, last) {
    }
    if f in data {
      assert f in SectionOrders(data);
      var i :| 0 <= i < |names| && names[i] == f;
      assert Same(noCase, view[i].name, name);
    }
  }

  lemma RankedLater(names: seq<string>, orders: map<string, nat>, last: nat, last': nat)
    requires Ranked(names, orders, last) && last <= last'
    ensures Ranked(names, orders, last')
  {
  }

  /** Two names at different places are different. */
  lemma RankedApart(names: seq<string>, orders: map<string, nat>, last: nat)
    requires Ranked(names, orders, last)
    ensures forall i, j :: 0 <= i < |names| && 0 <= j < |names| && i != j ==> names[i] != names[j]
  {
    forall i, j | 0 <= i < |names| && 0 <= j < |names| && i != j ensures names[i] != names[j] {
      assert if i < j then orders[names[i]] < orders[names[j]] else orders[names[j]] < orders[names[i]];
    }
  }

  lemma KeyReplaced(noCase: bool, recs: map<string, KeyRec>, keys: seq<(string, string)>, last: nat, i: nat, val: string)
    requires KeysOrdered(noCase, recs, keys, last) && i < |keys|
    ensures var f := Fold(noCase, keys[i].0);
      f in recs && KeysOrdered(noCase, recs[f := recs[f].(val := val)], keys[i := (keys[i].0, val)], last + 1)
  {
    hide Fold, Ranked;
    var f := Fold(noCase, keys[i].0);
    var recs', keys' := recs[f := recs[f].(val := val)], keys[i := (keys[i].0, val)];
    assert KeyNames(noCase, keys') == KeyNames(noCase, keys);
    assert KeyOrders(recs') == KeyOrders(recs);
    RankedLater(KeyNames(noCase, keys), KeyOrders(recs), last, last + 1);
    RankedApart(KeyNames(noCase, keys), KeyOrders(recs), last);
    forall j | 0 <= j < |keys'|
      ensures var g := Fold(noCase, keys'[j].0); g in recs' && recs'[g].name == keys'[j].0 && recs'[g].val == keys'[j].1
    {
      assert KeyNames(noCase, keys)[i] == f && KeyNames(noCase, keys)[j] == Fold(noCase, keys[j].0);
    }
  }

  lemma KeyAppended(noCase: bool, recs: map<string, KeyRec>, keys: seq<(string, string)>, last: nat, key: string, val: string)
    requires KeysOrdered(noCase, recs, keys, last) && Fold(noCase, key) !in recs
    ensures KeysOrdered(noCase, recs[Fold(noCase, key) := KeyRec(key, last + 1, val)], keys + [(key, val)], last + 1)
  {
    hide Fold, Ranked;
    var f := Fold(noCase, key);
    var recs', keys' := recs[f := KeyRec(key, last + 1, val)], keys + [(key, val)];
    assert KeyNames(noCase, keys') == KeyNames(noCase, keys) + [f];
    assert KeyOrders(recs') == KeyOrders(recs)[f := last + 1];
    RankedNext(KeyNames(noCase, keys), KeyOrders(recs), last, f);
  }

  lemma KeyAdded(noCase: bool, recs: map<string, KeyRec>, keys: seq<(string, string)>, last: nat, key: string, val: string)
    requires KeysOrdered(noCase, recs, keys, last)
    ensures var f := Fold(noCase, key);
      var rec := if f in recs then recs[f].(val := val) else KeyRec(key, last + 1, val);
      KeysOrdered(noCase, recs[f := rec], WithKey(noCase, keys, key, val), last + 1)
  {
    hide Fold, KeysOrdered;
    KeyPlace(noCase, recs, keys, last, key);
    if Fold(noCase, key) in recs {
      KeyReplaced(noCase, recs, keys, last, KeyIndex(noCase, keys, key), val);
    } else {
      KeyAppended(noCase, recs, keys, last, key, val);
    }
  }

  lemma SectionAdded(noCase: bool, data: map<string, SectionRec>, view: seq<Section>, last: nat, name: string)
    requires Ordered(noCase, data, view, last) && Fold(noCase, name) !in data
    ensures Ordered(noCase, data[Fold(noCase, name) := SectionRec(name, last + 1, map[])], view + [Section(name, [])], last + 1)
    ensures WithSection(noCase, view, name) == view + [Section(name, [])]
  {
    hide Fold, Ranked, KeysOrdered;
    SectionPlace(noCase, data, view, last, name);
    var f := Fold(noCase, name);
    var view', data' := view + [Section(name, [])], data[f := SectionRec(name, last + 1, map[])];
    assert SectionNames(noCase, view') == SectionNames(noCase, view) + [f];
    assert SectionOrders(data') == SectionOrders(data)[f := last + 1];
    RankedNext(SectionNames(noCase, view), SectionOrders(data), last, f);
    NoKeys(noCase, last + 1);
    forall j | 0 <= j < |view'| ensures SectionHeld(noCase, data', view'[j], last + 1) {
      if j < |view| { HeldLater(noCase, data, data', view[j], last, last + 1); }
    }
  }

  lemma NoKeys(noCase: bool, last: nat)
    ensures KeysOrdered(noCase, map[], [], last)
  {
  }

  lemma HeldLater(noCase: bool, data: map<string, SectionRec>, data': map<string, SectionRec>, s: Section,
                  last: nat, last': nat)
    requires SectionHeld(noCase, data, s, last) && last <= last'
    requires Fold(noCase, s.name) in data' && data'[Fold(noCase, s.name)] == data[Fold(noCase, s.name)]
    ensures SectionHeld(noCase, data', s, last')
  {
    hide Fold, Ranked;
    var f := Fold(noCase, s.name);
    RankedLater(KeyNames(noCase, s.keys), KeyOrders(data[f].keys), last, last');
  }

  /** New keys for one section. */
  lemma SectionChanged(noCase: bool, data: map<string, SectionRec>, view: seq<Section>, last: nat, i: nat,
                       recs: map<string, KeyRec>, keys: seq<(string, string)>, last': nat)
    requires Ordered(noCase, data, view, last) && i < |view| && KeysOrdered(noCase, recs, keys, last') && last <= last'
    ensures var f := Fold(noCase, view[i].name);
      f in data && Ordered(noCase, data[f := data[f].(keys := recs)], view[i := view[i].(keys := keys)], last')
  {
    hide Fold, Ranked, KeysOrdered;
    var f := Fold(noCase, view[i].name);
    assert SectionHeld(noCase, data, view[i], last);
    var view', data' := view[i := view[i].(keys := keys)], data[f := data[f].(keys := recs)];
    assert SectionNames(noCase, view') == SectionNames(noCase, view);
    assert SectionOrders(data') == SectionOrders(data);
    RankedLater(SectionNames(noCase, view), SectionOrders(data), last, last');
    RankedApart(SectionNames(noCase, view), SectionOrders(data), last);
    forall j | 0 <= j < |view'| ensures SectionHeld(noCase, data', view'[j], last') {
      assert SectionNames(noCase, view)[i] == f && SectionNames(noCase, view)[j] == Fold(noCase, view[j].name);
      if j != i { HeldLater(noCase, data, data', view[j], last, last'); }
    }
  }

  // ---------- one entry, one section less ----------

  lemma StillThere(names: seq<string>, k: nat, f: string)
    requires k < |names| && f in names && f != names[k]
    ensures f in names[..k] + names[k + 1..]
  {
    var i :| 0 <= i < |names| && names[i] == f;
    assert (names[..k] + names[k + 1..])[if i < k then i else i - 1] == f;
  }

  lemma RankedLess(names: seq<string>, orders: map<string, nat>, last: nat, k: nat)
    requires Ranked(names, orders, last) && k < |names|
    ensures Ranked(names[..k] + names[k + 1..], orders - {names[k]}, last)
  {
    var names', orders' := names[..k] + names[k + 1..], orders - {names[k]};
    RankedApart(names, orders, last);
    forall i | 0 <= i < |names'| ensures names'[i] == names[if i < k then i else i + 1] && names'[i] != names[k] {
    }
    forall f | f in orders' ensures f in names' {
      StillThere(names, k, f);
    }
  }

  lemma KeyRemoved(noCase: bool, recs: map<string, KeyRec>, keys: seq<(string, string)>, last: nat, k: nat)
    requires KeysOrdered(noCase, recs, keys, last) && k < |keys|
    ensures KeysOrdered(noCase, recs - {Fold(noCase, keys[k].0)}, Without(keys, k), last)
    ensures |keys| == 1 <==> recs - {Fold(noCase, keys[k].0)} == map[]
  {
    hide Fold, Ranked;
    var f := Fold(noCase, keys[k].0);
    var recs', keys' := recs - {f}, Without(keys, k);
    var names := KeyNames(noCase, keys);
    assert KeyNames(noCase, keys') == names[..k] + names[k + 1..];
    assert KeyOrders(recs') == KeyOrders(recs) - {f};
    RankedLess(names, KeyOrders(recs), last, k);
    RankedApart(names, KeyOrders(recs), last);
    forall j | 0 <= j < |keys'|
      ensures var g := Fold(noCase, keys'[j].0); g in recs' && recs'[g].name == keys'[j].0 && recs'[g].val == keys'[j].1
    {
      var i := if j < k then j else j + 1;
      assert keys'[j] == keys[i] && names[i] != names[k];
    }
    if |keys| > 1 {
      assert keys'[0] == keys'[0] && Fold(noCase, keys'[0].0) in recs';
    } else {
      OnlyOne(names, KeyOrders(recs), last, f);
      assert forall g :: g in recs ==> g in KeyOrders(recs);
    }
  }

  lemma OnlyOne(names: seq<string>, orders: map<string, nat>, last: nat, f: string)
    requires Ranked(names, orders, last) && names == [f]
    ensures forall g :: g in orders ==> g == f
  {
  }

  lemma SectionRemoved(noCase: bool, data: map<string, SectionRec>, view: seq<Section>, last: nat, k: nat)
    requires Ordered(noCase, data, view, last) && k < |view|
    ensures Ordered(noCase, data - {Fold(noCase, view[k].name)}, Without(view, k), last)
  {
    hide Fold, Ranked, KeysOrdered;
    var f := Fold(noCase, view[k].name);
    var data', view', names := data - {f}, Without(view, k), SectionNames(noCase, view);
    assert SectionNames(noCase, view') == names[..k] + names[k + 1..];
    assert SectionOrders(data') == SectionOrders(data) - {f};
    RankedLess(names, SectionOrders(data), last, k);
    RankedApart(names, SectionOrders(data), last);
    forall j | 0 <= j < |view'| ensures SectionHeld(noCase, data', view'[j], last) {
      var i := if j < k then j else j + 1;
      assert view'[j] == view[i] && names[i] != names[k];
      HeldLater(noCase, data, data', view[i], last, last);
    }
  }

  /** The store without a key; an emptied section goes too if `prune`. */
  function WithoutKey(noCase: bool, view: seq<Section>, name: string, key: string, prune: bool): seq<Section> {
    var i := SectionIndex(noCase, view, name);
    if i == |view| then view else
    var k := KeyIndex(noCase, view[i].keys, key);
    if k == |view[i].keys| then view
    else if prune && |view[i].keys| == 1 then Without(view, i)
    else view[i := view[i].(keys := Without(view[i].keys, k))]
  }

  function WithoutSection(noCase: bool, view: seq<Section>, name: string): seq<Section> {
    var i := SectionIndex(noCase, view, name);
    if i == |view| then view else Without(view, i)
  }

  // ---------- what changes in a store ----------

  ghost predicate HasSection(noCase: bool, ini: seq<Section>, name: string) {
    exists i :: 0 <= i < |ini| && Same(noCase, ini[i].name, name)
  }

  ghost predicate HasKey(noCase: bool, keys: seq<(string, string)>, key: string) {
    exists j :: 0 <= j < |keys| && Same(noCase, keys[j].0, key)
  }

  /** A new section comes last and a new key last in its section; a key that is there keeps its place and
      the name it was first loaded with. */
  ghost predicate Added(noCase: bool, was: seq<Section>, now: seq<Section>, name: string, key: Option<string>, val: string) {
    if !HasSection(noCase, was, name) then
      now == was + [Section(name, if key.None? then [] else [(key.value, val)])]
    else if key.None? then now == was
    else exists i :: 0 <= i < |was| && Same(noCase, was[i].name, name) && KeyAddedAt(noCase, was, now, i, key.value, val)
  }

  ghost predicate KeyAddedAt(noCase: bool, was: seq<Section>, now: seq<Section>, i: nat, key: string, val: string)
    requires i < |was|
  {
    var keys := was[i].keys;
    if !HasKey(noCase, keys, key) then now == was[i := Section(was[i].name, keys + [(key, val)])]
    else exists j :: 0 <= j < |keys| && Same(noCase, keys[j].0, key)
                     && now == was[i := Section(was[i].name, keys[j := (keys[j].0, val)])]
  }

  /** Only what was named is gone: without `prune` every section stays, and all other keys keep their place
      and value. */
  ghost predicate Removed(noCase: bool, was: seq<Section>, now: seq<Section>, name: string, key: Option<string>,
                          prune: bool)
  {
    if !HasSection(noCase, was, name) then now == was
    else exists i :: 0 <= i < |was| && Same(noCase, was[i].name, name) && RemovedAt(noCase, was, now, i, key, prune)
  }

  ghost predicate RemovedAt(noCase: bool, was: seq<Section>, now: seq<Section>, i: nat, key: Option<string>, prune: bool)
    requires i < |was|
  {
    var keys := was[i].keys;
    if key.Some? && !HasKey(noCase, keys, key.value) then now == was
    else if key.None? || (prune && |keys| == 1) then now == was[..i] + was[i + 1..]
    else exists j :: 0 <= j < |keys| && Same(noCase, keys[j].0, key.value)
                     && now == was[i := Section(was[i].name, keys[..j] + keys[j + 1..])]
  }

  lemma IndexHas(noCase: bool, ini: seq<Section>, name: string)
    ensures SectionIndex(noCase, ini, name) < |ini| <==> HasSection(noCase, ini, name)
  {
    hide Same;
  }

  lemma KeyIndexHas(noCase: bool, keys: seq<(string, string)>, key: string)
    ensures KeyIndex(noCase, keys, key) < |keys| <==> HasKey(noCase, keys, key)
  {
    hide Same;
  }

  lemma KeyAdds(noCase: bool, was: seq<Section>, i: nat, key: string, val: string)
    requires i < |was|
    ensures KeyAddedAt(noCase, was, was[i := was[i].(keys := WithKey(noCase, was[i].keys, key, val))], i, key, val)
  {
    hide Same, KeyIndex;
    KeyIndexHas(noCase, was[i].keys, key);
  }

  lemma EntryAdds(noCase: bool, was: seq<Section>, name: string, key: Option<string>, val: string)
    ensures Added(noCase, was,
                  if key.None? then WithSection(noCase, was, name) else WithEntry(noCase, was, name, key.value, val),
                  name, key, val)
  {
    hide Same, SectionIndex, WithKey, KeyAddedAt;
    IndexHas(noCase, was, name);
    var i := SectionIndex(noCase, was, name);
    if i < |was| {
      if key.Some? { KeyAdds(noCase, was, i, key.value, val); }
    } else {
      NoSuchSection(noCase, was, Section(name, []));
      if key.Some? { OneKey(noCase, key.value, val); }
    }
  }

  lemma OneKey(noCase: bool, key: string, val: string)
    ensures WithKey(noCase, [], key, val) == [(key, val)]
  {
  }

  lemma EntryRemoves(noCase: bool, was: seq<Section>, name: string, key: Option<string>, prune: bool)
    ensures Removed(noCase, was,
                    if key.None? then WithoutSection(noCase, was, name) else WithoutKey(noCase, was, name, key.value, prune),
                    name, key, prune)
  {
    hide Same, SectionIndex, KeyIndex;
    IndexHas(noCase, was, name);
    var i := SectionIndex(noCase, was, name);
    if i < |was| && key.Some? {
      KeyIndexHas(noCase, was[i].keys, key.value);
    }
  }

  /** No two sections and no two keys of a section have the same name. */
  lemma NamesApart(noCase: bool, data: map<string, SectionRec>, view: seq<Section>, last: nat)
    requires Ordered(noCase, data, view, last)
    ensures forall i, j :: 0 <= i < j < |view| ==> !Same(noCase, view[i].name, view[j].name)
    ensures forall i :: 0 <= i < |view| ==> DistinctKeys(noCase, view[i].keys)
  {
    hide Fold, Ranked;
    RankedApart(SectionNames(noCase, view), SectionOrders(data), last);
    forall i, j | 0 <= i < j < |view| ensures !Same(noCase, view[i].name, view[j].name) {
      assert SectionNames(noCase, view)[i] != SectionNames(noCase, view)[j];
    }
    forall i | 0 <= i < |view| ensures DistinctKeys(noCase, view[i].keys) {
      assert SectionHeld(noCase, data, view[i], last);
      KeysApart(noCase, data[Fold(noCase, view[i].name)].keys, view[i].keys, last);
    }
  }

  lemma KeysApart(noCase: bool, recs: map<string, KeyRec>, keys: seq<(string, string)>, last: nat)
    requires KeysOrdered(noCase, recs, keys, last)
    ensures DistinctKeys(noCase, keys)
  {
    hide Fold, Ranked;
    RankedApart(KeyNames(noCase, keys), KeyOrders(recs), last);
    forall i, j | 0 <= i < j < |keys| ensures !Same(noCase, keys[i].0, keys[j].0) {
      assert KeyNames(noCase, keys)[i] != KeyNames(noCase, keys)[j];
    }
  }

  // ---------- sorting, printing one value ----------

  /** The names of a map, sorted by load order. */
  method Sorted(orders: map<string, nat>, ghost names: seq<string>, ghost last: nat) returns (r: seq<string>)
    requires Ranked(names, orders, last)
    ensures r == names
  {
    hide Ranked;
    r := [];
    var left := orders.Keys;
    AllLeft(names, orders, last);
    while left != {}
      invariant |r| <= |names| && r == names[..|r|]
      invariant forall f :: f in left <==> f in names[|r|..]
      decreases left
    {
      Smallest(names, orders, last, |r|, left);
      var f :| f in left && forall g :: g in left ==> orders[f] <= orders[g];
      NextName(names, orders, last, |r|, f);
      left := left - {f};
      r := r + [f];
    }
    FirstLeft(names, |r|);
    assert names[..|names|] == names;
  }

  lemma FirstLeft(names: seq<string>, n: nat)
    ensures n < |names| ==> names[n] in names[n..]
  {
    if n < |names| { assert names[n..][0] == names[n]; }
  }

  lemma AllLeft(names: seq<string>, orders: map<string, nat>, last: nat)
    requires Ranked(names, orders, last)
    ensures forall f :: f in orders.Keys <==> f in names[0..]
  {
    assert names[0..] == names;
  }

  lemma Smallest(names: seq<string>, orders: map<string, nat>, last: nat, n: nat, left: set<string>)
    requires Ranked(names, orders, last) && n <= |names| && left != {}
    requires forall f :: f in left <==> f in names[n..]
    ensures n < |names| && left <= orders.Keys && names[n] in left
    ensures forall g :: g in left ==> orders[names[n]] <= orders[g]
  {
    var f :| f in left;
    assert f in names[n..];
    assert names[n..][0] == names[n];
    forall g | g in left ensures g in orders && orders[names[n]] <= orders[g] {
      var i :| 0 <= i < |names[n..]| && names[n..][i] == g;
      assert names[n + i] == g;
    }
  }

  lemma NextName(names: seq<string>, orders: map<string, nat>, last: nat, n: nat, f: string)
    requires Ranked(names, orders, last) && n < |names| && f in names[n..] && f in orders
    requires orders[f] <= orders[names[n]]
    ensures f == names[n] && names[..n] + [f] == names[..n + 1]
    ensures forall g :: g in names[n + 1..] <==> g in names[n..] && g != f
  {
    var i :| 0 <= i < |names[n..]| && names[n..][i] == f;
    assert names[n + i] == f;
    RankedApart(names, orders, last);
    assert names[n..] == [names[n]] + names[n + 1..];
  }

  /** Whether a value does not fit on one line as it is. */
  method IsMultiLineData(v: string) returns (multi: bool)
    ensures multi == IsMultiLine(v)
    ensures multi <==> !Trimmed(v) || '\n' in v || '\r' in v
  {
    if |v| == 0 {
      return false;
    }
    if IsSpace(v[0]) {
      return true;
    }
    var i := 0;
    while i < |v|
      invariant 0 <= i <= |v| && forall j :: 0 <= j < i ==> !IsNewLine(v[j])
    {
      if IsNewLine(v[i]) {
        assert v[i] in v;
        return true;
      }
      i := i + 1;
    }
    multi := IsSpace(v[|v| - 1]);
  }

  lemma {:induction false} SplitAt(v: string, n: nat)
    requires n <= |v| && (n < |v| ==> v[n] == '\n') && forall i :: 0 <= i < n ==> v[i] != '\n'
    ensures Split(v) == if n == |v| then [v] else [v[..n]] + Split(v[n + 1..])
  {
    if n == 0 {
      if v != [] { assert v[..0] == []; }
    } else {
      SplitAt(v[1..], n - 1);
      assert v == [v[0]] + v[1..];
      assert v[..n] == [v[0]] + v[1..][..n - 1];
      assert n < |v| ==> v[1..][n..] == v[n + 1..];
    }
  }

  /** The lines of a value, each ended by the platform's line end; nothing for the empty value. */
  method OutputMultiLineText(v: string, nl: string) returns (out: string)
    ensures out == if v == [] then [] else Lines(Split(v), nl)
  {
    out := [];
    var text, more := v, |v| > 0;
    while more
      invariant if more then out + Lines(Split(text), nl) == Lines(Split(v), nl)
                else out == if v == [] then [] else Lines(Split(v), nl)
      decreases |text|, more
    {
      var end := 0;
      while end < |text| && text[end] != '\n'
        invariant 0 <= end <= |text| && forall i :: 0 <= i < end ==> text[i] != '\n'
      {
        end := end + 1;
      }
      SplitAt(text, end);
      more := end < |text|;
      ghost var so := out;
      out := out + text[..end] + nl;
      LinesFrom(text, end, nl);
      if more {
        Together(so, text[..end], nl, Lines(Split(text[end + 1..]), nl));
        text := text[end + 1..];
      } else {
        Together(so, text[..end], nl, []);
      }
    }
  }

  lemma LinesFrom(text: string, end: nat, nl: string)
    requires end <= |text| && Split(text) == if end == |text| then [text] else [text[..end]] + Split(text[end + 1..])
    ensures Lines(Split(text), nl)
         == text[..end] + nl + if end == |text| then [] else Lines(Split(text[end + 1..]), nl)
  {
    if end == |text| {
      assert text[..end] == text;
      assert Lines([text], nl) == text + nl + Lines([], nl);
    } else {
      assert Split(text)[1..] == Split(text[end + 1..]);
    }
  }

  lemma Together(a: string, b: string, c: string, d: string)
    ensures a + (b + c + d) == a + b + c + d
  {
  }

  // ---------- the section the tokenizer is in ----------

  function NameIn(t: Tokenizer): string
    reads t, t.buf
  {
    if t.section.None? then [] else t.StringAt(t.section.value)
  }

  /** The current section is `name`, and the text that says so has been read. */
  ghost predicate NameHeld(t: Tokenizer, name: string)
    reads t, t.buf
  {
    NameIn(t) == name && (t.section.Some? ==> t.section.value + |name| < t.data)
  }

  lemma NameStarts(t: Tokenizer)
    requires t.section == None
    ensures NameHeld(t, [])
  {
  }

  lemma NameBytes(t: Tokenizer, name: string)
    requires t.Valid() && NameHeld(t, name)
    ensures t.section.None? ==> name == []
    ensures t.section.Some? ==>
      var p := t.section.value;
      p + |name| < t.data && t.buf[p..p + |name|] == name && t.buf[p + |name|] == NUL && NUL !in name
  {
    hide CString;
    if t.section.Some? { t.StringBytes(t.section.value); }
  }

  /** The text that was read has not changed. */
  lemma NameStays(t: Tokenizer, name: string)
    requires t.section.None? ==> name == []
    requires t.section.Some? ==>
      var p := t.section.value;
      p + |name| < t.data && t.data < t.buf.Length && t.buf[p..p + |name|] == name && t.buf[p + |name|] == NUL
      && NUL !in name
    ensures NameHeld(t, name)
  {
    hide CString;
    if t.section.Some? { t.StringIs(t.section.value, name); }
  }

  lemma NameFound(t: Tokenizer, name: string)
    requires t.section.Some? && t.StringAt(t.section.value) == name && t.section.value + |name| < t.data
    ensures NameHeld(t, name)
  {
  }

  lemma NameIs(t: Tokenizer, name: string)
    requires NameHeld(t, name)
    ensures NameIn(t) == name
  {
  }

  lemma LoadedByEntry(noCase: bool, multiLine: bool, s: string, s': string, ini: seq<Section>, name: string)
    requires FindEntry(noCase, multiLine, s) == FindEntry(noCase, multiLine, s')
    ensures Loaded(noCase, multiLine, s, ini, name) == Loaded(noCase, multiLine, s', ini, name)
  {
  }

  lemma LoadedStep(noCase: bool, multiLine: bool, s: string, ini: seq<Section>, name: string)
    ensures var f := FindEntry(noCase, multiLine, s);
      && (f.Nothing? ==> Loaded(noCase, multiLine, s, ini, name) == Some(ini))
      && (!f.Nothing? && Loaded(noCase, multiLine, s, ini, name).Some? ==>
            && |f.rest| < |s| && Taken(noCase, Progress(ini, name), f).Some?
            && var p := Taken(noCase, Progress(ini, name), f).value;
               Loaded(noCase, multiLine, s, ini, name) == Loaded(noCase, multiLine, f.rest, p.ini, p.name))
      && (!f.Nothing? ==> |f.rest| < |s|)
  {
    hide FindEntry, Taken;
  }

  /** The comment at the start of a file is skipped like any other. */
  lemma {:induction false} FileCommentSkipped(noCase: bool, multiLine: bool, s: string)
    ensures FindEntry(noCase, multiLine, FileRest(s)) == FindEntry(noCase, multiLine, s)
    decreases |s|
  {
    hide FindEntry, FindHere;
    if s != [] && IsComment(s[0]) {
      var after := AfterLine(s, LineEnd(s));
      FileCommentSkipped(noCase, multiLine, after);
      AtEntry(noCase, multiLine, s);
      AtComment(noCase, multiLine, s);
      var next := TrimLeft(after);
      FindTrims(noCase, multiLine, after);
      TrimTwice(after);
      if next != [] && IsComment(next[0]) {
        AtEntry(noCase, multiLine, next);
        AtComment(noCase, multiLine, next);
      }
    }
  }

  /** The name of the current section after entry `f`; stray section lines leave it unknown. */
  predicate Clear(f: Found) {
    f.SectionLine? || (f.KeyLine? && !f.stray) || (f.TagLine? && !f.stray && f.lines != [])
  }

  function NameAfter(f: Found, name: string): string {
    if f.SectionLine? then f.name else name
  }

  /** The next entry, with the name of the section it belongs to still in place. */
  method ReadEntry(t: Tokenizer, ghost name: string, ghost known: bool) returns (found: bool, isKey: bool)
    requires t.Valid() && (known ==> NameHeld(t, name))
    modifies t, t.buf
    ensures var f := IniText.FindEntry(t.noCase, t.multiLine, old(t.Unread()));
      && found == !f.Nothing?
      && (found ==> t.Valid() && t.Unread() == f.rest && isKey == !f.SectionLine? && (!isKey ==> t.section.Some?))
      && (found && known && Clear(f) ==> NameHeld(t, NameAfter(f, name)))
      && (f.KeyLine? ==> t.StringAt(t.key) == f.key && t.StringAt(t.val) == f.val)
      && (f.TagLine? && f.lines != [] ==> t.StringAt(t.key) == f.key && t.StringAt(t.val) == Joined(f.lines))
  {
    hide CString, IniText.FindEntry, Joined, NameHeld;
    ghost var f := IniText.FindEntry(t.noCase, t.multiLine, t.Unread());
    if known { NameBytes(t, name); }
    found, isKey := t.FindEntry();
    if found && known && Clear(f) {
      if isKey { NameStays(t, name); } else { NameFound(t, f.name); }
    }
  }

  lemma TakenClear(noCase: bool, p: Progress, f: Found)
    requires !f.Nothing?
    ensures Taken(noCase, p, f).Some? ==> Clear(f) && Taken(noCase, p, f).value.name == NameAfter(f, p.name)
    ensures f.SectionLine? ==> Taken(noCase, p, f) == Some(Progress(WithSection(noCase, p.ini, f.name), f.name))
    ensures f.KeyLine? && Clear(f) ==>
      Taken(noCase, p, f).Some? && Taken(noCase, p, f).value.ini == WithEntry(noCase, p.ini, p.name, f.key, f.val)
    ensures f.TagLine? && Clear(f) ==>
      Taken(noCase, p, f).Some? && Taken(noCase, p, f).value.ini == WithEntry(noCase, p.ini, p.name, f.key, Joined(f.lines))
  {
    hide WithEntry, WithSection, Joined;
  }

  // ---------- the class ----------

  class Ini {
    const noCase: bool
    const style: Style
    var data: map<string, SectionRec>
    var order: nat
    /** The sections, keys and values in load order. */
    ghost var view: seq<Section>

    ghost predicate Valid()
      reads this
    {
      Ordered(noCase, data, view, order)
    }

    constructor (noCase: bool, style: Style)
      ensures Valid() && view == [] && this.noCase == noCase && this.style == style
    {
      this.noCase, this.style := noCase, style;
      data, order, view := map[], 0, [];
    }

    /** Adds a section, or a key of a section, or gives the key a new value. */
    method AddEntry(name: string, key: Option<string>, val: string) returns (inserted: bool)
      requires Valid()
      modifies this
      ensures Valid()
      ensures view == if key.None? then WithSection(noCase, old(view), name)
                      else WithEntry(noCase, old(view), name, key.value, val)
      ensures Added(noCase, old(view), view, name, key, val)
      ensures inserted <==> !HasEntry(noCase, old(view), name, key)
    {
      hide Fold, Ordered, KeysOrdered, Added;
      EntryAdds(noCase, view, name, key, val);
      inserted := false;
      var f := Fold(noCase, name);
      SectionPlace(noCase, data, view, order, name);
      if f !in data {
        SectionAdded(noCase, data, view, order, name);
        NoSuchSection(noCase, view, Section(name, []));
        order := order + 1;
        data := data[f := SectionRec(name, order, map[])];
        view := WithSection(noCase, view, name);
        inserted := true;
      }
      if key.Some? {
        var newKey := AddKey(f, name, key.value, val);
        inserted := inserted || newKey;
      }
    }

    /** Adds a key to a section that is there. */
    method AddKey(f: string, ghost name: string, key: string, val: string) returns (inserted: bool)
      requires Valid() && f == Fold(noCase, name) && SectionIndex(noCase, view, name) < |view|
      modifies this
      ensures Valid()
      ensures var i := SectionIndex(noCase, old(view), name);
        && view == old(view)[i := old(view)[i].(keys := WithKey(noCase, old(view)[i].keys, key, val))]
        && (inserted <==> KeyIndex(noCase, old(view)[i].keys, key) == |old(view)[i].keys|)
    {
      hide Fold, Ranked, KeysOrdered;
      ghost var i := SectionIndex(noCase, view, name);
      assert SectionHeld(noCase, data, view[i], order);
      var keys, g := data[f].keys, Fold(noCase, key);
      KeyPlace(noCase, keys, view[i].keys, order, key);
      KeyAdded(noCase, keys, view[i].keys, order, key, val);
      inserted := g !in keys;
      var rec := if g in keys then keys[g].(val := val) else KeyRec(key, order + 1, val);
      SectionChanged(noCase, data, view, order, i, keys[g := rec], WithKey(noCase, view[i].keys, key, val), order + 1);
      order := order + 1;
      data := data[f := data[f].(keys := keys[g := rec])];
      view := view[i := view[i].(keys := WithKey(noCase, view[i].keys, key, val))];
    }

    /** Removes a key of a section, or the whole section; an emptied section goes too if `prune`. */
    method Delete(name: string, key: Option<string>, prune: bool) returns (found: bool)
      requires Valid()
      modifies this
      ensures Valid()
      ensures view == if key.None? then WithoutSection(noCase, old(view), name)
                      else WithoutKey(noCase, old(view), name, key.value, prune)
      ensures Removed(noCase, old(view), view, name, key, prune)
      ensures found <==> view != old(view)
    {
      hide Fold, Ranked, KeysOrdered, Removed;
      EntryRemoves(noCase, view, name, key, prune);
      var f := Fold(noCase, name);
      SectionPlace(noCase, data, view, order, name);
      if f !in data {
        return false;
      }
      found := true;
      ghost var i := SectionIndex(noCase, view, name);
      assert SectionHeld(noCase, data, view[i], order);
      if key.Some? {
        var keys, g := data[f].keys, Fold(noCase, key.value);
        KeyPlace(noCase, keys, view[i].keys, order, key.value);
        if g !in keys {
          return false;
        }
        ghost var k := KeyIndex(noCase, view[i].keys, key.value);
        KeyRemoved(noCase, keys, view[i].keys, order, k);
        if !prune || keys - {g} != map[] {
          SectionChanged(noCase, data, view, order, i, keys - {g}, Without(view[i].keys, k), order);
          data := data[f := data[f].(keys := keys - {g})];
          view := view[i := view[i].(keys := Without(view[i].keys, k))];
          return;
        }
      }
      SectionRemoved(noCase, data, view, order, i);
      data := data - {f};
      view := Without(view, i);
    }

    /** One key and its value. */
    method SaveKey(key: string, val: string) returns (out: string)
      ensures out == PrintedKey(key, val, style)
      ensures !style.multiLine || (Trimmed(val) && '\n' !in val && '\r' !in val) ==>
        out == key + (if style.spaces then " = " else "=") + val + style.nl
    {
      out := key + if style.spaces then " = " else "=";
      var multi := IsMultiLineData(val);
      if style.multiLine && multi {
        var text := OutputMultiLineText(val, style.nl);
        out := out + ("<<<" + END_TAG + style.nl + text + END_TAG);
      } else {
        out := out + val;
      }
      out := out + style.nl;
    }

    /** The keys of a section, in load order. */
    method SaveKeys(recs: map<string, KeyRec>, ghost keys: seq<(string, string)>) returns (out: string)
      requires KeysOrdered(noCase, recs, keys, order)
      ensures out == PrintedKeys(keys, style)
    {
      hide Fold, Ranked, PrintedKey;
      var names := Sorted(KeyOrders(recs), KeyNames(noCase, keys), order);
      out := [];
      var i := 0;
      while i < |names|
        invariant 0 <= i <= |names| && out == KeysPrinted(keys, i, style)
      {
        var k := recs[names[i]];
        var line := SaveKey(k.name, k.val);
        out := out + line;
        i := i + 1;
      }
      KeysPrintedAll(keys, |names|, style);
      assert keys[|names|..] == [] && out + [] == out;
    }

    /** One section: its name, unless it has none, and its keys. */
    method SaveSection(f: string, ghost s: Section) returns (out: string)
      requires Valid() && SectionHeld(noCase, data, s, order) && f == Fold(noCase, s.name)
      ensures out == PrintedSection(s, style)
    {
      hide Fold, KeysOrdered, PrintedKeys, Ordered;
      var rec := data[f];
      out := [];
      if |rec.name| > 0 {
        out := "[" + rec.name + "]" + style.nl;
      }
      var keys := SaveKeys(rec.keys, s.keys);
      out := out + keys;
    }

    /** Prints the whole store, sections in load order with a blank line between them. */
    method Save() returns (out: string)
      requires Valid()
      ensures out == Printed(view, style)
    {
      hide Fold, Ranked, PrintedSection, KeysOrdered;
      var names := Sorted(SectionOrders(data), SectionNames(noCase, view), order);
      out := [];
      var needNewLine := false;
      var i := 0;
      while i < |names|
        invariant 0 <= i <= |names| && needNewLine == (i > 0) && out == SectionsPrinted(view, i, style)
      {
        if needNewLine {
          out := out + style.nl;
          out := out + style.nl;
          Together(SectionsPrinted(view, i, style), style.nl, style.nl, []);
        }
        assert SectionHeld(noCase, data, view[i], order);
        var text := SaveSection(names[i], view[i]);
        assert out == SectionsPrinted(view, i, style) + if i > 0 then style.nl + style.nl else [];
        out := out + text;
        needNewLine := true;
        i := i + 1;
      }
      SectionsPrintedAll(view, |names|, style);
      assert view[|names|..] == [];
    }

    // ---------- loading ----------

    /** The current section name, which the tokenizer left in its buffer. */
    method AddFound(t: Tokenizer, isKey: bool)
      requires Valid() && this.noCase == t.noCase && (!isKey ==> t.section.Some?)
      modifies this
      ensures Valid() && view == if isKey then WithEntry(noCase, old(view), NameIn(t), t.StringAt(t.key), t.StringAt(t.val))
                                 else WithSection(noCase, old(view), NameIn(t))
    {
      hide CString, Ordered;
      var name := NameIn(t);
      var inserted;
      if isKey {
        inserted := AddEntry(name, Some(t.StringAt(t.key)), t.StringAt(t.val));
      } else {
        inserted := AddEntry(name, None, []);
      }
    }

    /** One entry of the text goes into the store; `whole` is what loading all of it leads to. */
    method LoadEntry(t: Tokenizer, ghost name: string, ghost whole: Option<seq<Section>>)
      returns (found: bool, ghost name': string)
      requires Valid() && t.Valid() && t.noCase == noCase && t.multiLine == style.multiLine
      requires whole.Some? ==> NameHeld(t, name) && Loaded(noCase, style.multiLine, t.Unread(), view, name) == whole
      modifies this, t, t.buf
      ensures Valid() && (found ==> t.Valid() && t.data > old(t.data))
      ensures whole.Some? ==>
        if found then NameHeld(t, name') && Loaded(noCase, style.multiLine, t.Unread(), view, name') == whole
        else view == whole.value
    {
      hide CString, Ordered, IniText.FindEntry, Loaded, NameHeld, NameIn, Taken, WithEntry, WithSection, Joined;
      ghost var rest := t.Unread();
      ghost var f := IniText.FindEntry(noCase, style.multiLine, rest);
      name' := name;
      LoadedStep(noCase, style.multiLine, rest, view, name);
      if !f.Nothing? { TakenClear(noCase, Progress(view, name), f); }
      var isKey;
      found, isKey := ReadEntry(t, name, whole.Some?);
      if found {
        name' := NameAfter(f, name);
        if whole.Some? { NameIs(t, name'); }
        AddFound(t, isKey);
      }
    }

    /** Loads every entry of a text, in order, on top of what is stored already. */
    method LoadData(text: string)
      requires Valid()
      modifies this
      ensures Valid()
      ensures var after := Loaded(noCase, style.multiLine, CString(text), old(view), []);
        after.Some? ==> view == after.value
    {
      hide CString, Ordered, FileRest, IniText.FindEntry, Loaded, NameHeld;
      var t := new Tokenizer(CString(text), noCase, style.multiLine);
      var comment := t.LoadComment(false);
      ghost var whole := Loaded(noCase, style.multiLine, CString(text), view, []);
      FileCommentSkipped(noCase, style.multiLine, CString(text));
      LoadedByEntry(noCase, style.multiLine, CString(text), t.Unread(), view, []);
      ghost var name := [];
      NameStarts(t);
      var found := true;
      while found
        invariant Valid() && fresh(t) && fresh(t.buf) && t.noCase == noCase && t.multiLine == style.multiLine
        invariant found ==> t.Valid()
        invariant whole.Some? ==>
          if found then NameHeld(t, name) && Loaded(noCase, style.multiLine, t.Unread(), view, name) == whole
          else view == whole.value
        decreases found, t.buf.Length - t.data
      {
        found, name := LoadEntry(t, name, whole);
      }
    }
  }

  // ---------- printing ----------

  /** What is printed for the first `n` keys of a section, and for the first `n` sections. */
  function KeysPrinted(keys: seq<(string, string)>, n: nat, o: Style): string
    requires n <= |keys|
  {
    if n == 0 then [] else KeysPrinted(keys, n - 1, o) + PrintedKey(keys[n - 1].0, keys[n - 1].1, o)
  }

  lemma {:induction false} KeysPrintedAll(keys: seq<(string, string)>, n: nat, o: Style)
    requires n <= |keys|
    ensures KeysPrinted(keys, n, o) + PrintedKeys(keys[n..], o) == PrintedKeys(keys, o)
  {
    hide PrintedKey;
    if n == 0 {
      assert keys[0..] == keys;
    } else {
      KeysPrintedAll(keys, n - 1, o);
      assert keys[n - 1..][1..] == keys[n..];
      Together(KeysPrinted(keys, n - 1, o), PrintedKey(keys[n - 1].0, keys[n - 1].1, o), [], PrintedKeys(keys[n..], o));
    }
  }

  function SectionsPrinted(view: seq<Section>, n: nat, o: Style): string
    requires n <= |view|
  {
    if n == 0 then []
    else SectionsPrinted(view, n - 1, o) + (if n > 1 then o.nl + o.nl else []) + PrintedSection(view[n - 1], o)
  }

  lemma {:induction false} SectionsPrintedAll(view: seq<Section>, n: nat, o: Style)
    requires n <= |view|
    ensures Printed(view, o)
         == SectionsPrinted(view, n, o) + (if 0 < n < |view| then o.nl + o.nl else []) + Printed(view[n..], o)
  {
    hide PrintedSection;
    if n == 0 {
      assert view[0..] == view;
    } else {
      SectionsPrintedAll(view, n - 1, o);
      var rest := view[n - 1..];
      assert rest[0] == view[n - 1] && rest[1..] == view[n..];
      var a, gap, s, z := SectionsPrinted(view, n - 1, o), (if n > 1 then o.nl + o.nl else []), PrintedSection(view[n - 1], o),
        (if n < |view| then o.nl + o.nl else []);
      assert Printed(rest, o) == s + z + Printed(view[n..], o);
      assert a + gap + (s + z + Printed(view[n..], o)) == (a + gap + s) + z + Printed(view[n..], o);
    }
  }

  /** The section is there, and the key if one is named. */
  predicate HasEntry(noCase: bool, view: seq<Section>, name: string, key: Option<string>) {
    var i := SectionIndex(noCase, view, name);
    i < |view| && (key.Some? ==> KeyIndex(noCase, view[i].keys, key.value) < |view[i].keys|)
  }

  // ---------- saving and loading again ----------

  /** Every name, key and value is a C string. */
  predicate TextKeys(keys: seq<(string, string)>) {
    forall e :: e in keys ==> Text(e.0) && Text(e.1)
  }

  predicate TextIni(ini: seq<Section>) {
    forall s :: s in ini ==> Text(s.name) && TextKeys(s.keys)
  }

  lemma {:induction false} SplitText(v: string)
    requires Text(v)
    ensures forall line :: line in Split(v) ==> Text(line)
  {
    if v != [] {
      assert v == [v[0]] + v[1..];
      assert v[0] in v;
      SplitText(v[1..]);
      var rest := Split(v[1..]);
      assert rest[0] in rest;
      forall line | line in Split(v) ensures Text(line) {
        assert line in rest || line == [] || line == [v[0]] + rest[0];
      }
    }
  }

  lemma {:induction false} LinesAreText(lines: seq<string>, nl: string)
    requires Text(nl) && forall line :: line in lines ==> Text(line)
    ensures Text(Lines(lines, nl))
  {
    if lines != [] {
      LinesAreText(lines[1..], nl);
      assert lines[0] in lines;
    }
  }

  lemma KeyIsText(key: string, val: string, o: Style)
    requires GoodStyle(o) && Text(key) && Text(val)
    ensures Text(PrintedKey(key, val, o))
  {
    SplitText(val);
    LinesAreText(Split(val), o.nl);
  }

  lemma {:induction false} KeysAreText(keys: seq<(string, string)>, o: Style)
    requires GoodStyle(o) && TextKeys(keys)
    ensures Text(PrintedKeys(keys, o))
  {
    hide PrintedKey;
    if keys != [] {
      KeysAreText(keys[1..], o);
      assert keys[0] in keys;
      KeyIsText(keys[0].0, keys[0].1, o);
    }
  }

  lemma {:induction false} PrintedIsText(ini: seq<Section>, o: Style)
    requires GoodStyle(o) && TextIni(ini)
    ensures Text(Printed(ini, o))
  {
    hide PrintedKeys;
    if ini != [] {
      assert ini[0] in ini;
      KeysAreText(ini[0].keys, o);
      if |ini| > 1 { PrintedIsText(ini[1..], o); }
    }
  }

  /** What was saved and loaded into a new store is the same store. */
  method SaveAndLoad(ini: Ini) returns (copy: Ini)
    requires ini.Valid() && GoodStyle(ini.style) && ini.style.multiLine
    requires GoodIni(ini.noCase, ini.view) && TextIni(ini.view)
    ensures fresh(copy) && copy.Valid() && copy.view == ini.view
  {
    hide GoodIni, TextIni, Printed, Loaded, Ordered, CString;
    var text := ini.Save();
    PrintedIsText(ini.view, ini.style);
    CStringIs(text, text);
    PrintedIsReadBack(ini.noCase, ini.style, ini.view);
    copy := new Ini(ini.noCase, ini.style);
    copy.LoadData(text);
  }
}
