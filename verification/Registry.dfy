/**
 Application registry entries (server/plat/gdial_app_registry.c) and the ordered
 registry list of server/gdial-rest.c, newest entry first.
 */
module Registry {
  import opened Common

  /** A registered application.  `uri` is "/" and the UUID kept for its name; without a
      table of properties there are none. */
  datatype Entry = Entry(
    name: string,
    uri: string,
    prefixes: seq<string>,
    origins: seq<string>,
    properties: map<string, string>,
    useAdditionalData: bool
  )

  function Reverse<T>(s: seq<T>): seq<T> {
    if s == [] then [] else Reverse(s[1..]) + [s[0]]
  }

  lemma {:induction false} ReverseSnoc<T>(s: seq<T>, x: T)
    ensures Reverse(s + [x]) == [x] + Reverse(s)
    decreases |s|
  {
    if s == [] {
      assert s + [x] == [x] && [x][1..] == [];
    } else {
      ReverseSnoc(s[1..], x);
      assert (s + [x])[0] == s[0] && (s + [x])[1..] == s[1..] + [x];
    }
  }

  // ---------- one entry ----------

  function NonEmpty(s: seq<string>): seq<string> {
    if s == [] then [] else (if s[0] != "" then [s[0]] else []) + NonEmpty(s[1..])
  }

  lemma {:induction false} NonEmptySnoc(s: seq<string>, x: string)
    ensures NonEmpty(s + [x]) == NonEmpty(s) + (if x != "" then [x] else [])
    decreases |s|
  {
    if s == [] {
      assert s + [x] == [x] && [x][1..] == [];
    } else {
      NonEmptySnoc(s[1..], x);
      assert (s + [x])[0] == s[0] && (s + [x])[1..] == s[1..] + [x];
    }
  }

  /** Copies a table entry by entry, in the order the walk hands them out. */
  method CopyProperties(properties: map<string, string>) returns (copy: map<string, string>)
    ensures copy == properties
  {
    copy := map[];
    var rest := properties;
    while rest != map[]
      invariant copy + rest == properties
      decreases rest.Keys
    {
      var k :| k in rest;
      copy := copy[k := rest[k]];
      rest := rest - {k};
    }
  }

  /** gdial_app_registry_new: both lists are copied by prepending, so they come out
      reversed, and empty prefixes are left out; the properties are copied as they are. */
  method NewEntry(name: string, uri: string, prefixes: seq<string>, properties: map<string, string>,
                  useAdditionalData: bool, origins: seq<string>)
    returns (e: Entry)
    ensures e == Entry(name, uri, Reverse(NonEmpty(prefixes)), Reverse(origins), properties, useAdditionalData)
  {
    var ps: seq<string> := [];
    var n := 0;
    while n < |prefixes|
      invariant n <= |prefixes|
      invariant ps == Reverse(NonEmpty(prefixes[..n]))
    {
      NonEmptySnoc(prefixes[..n], prefixes[n]);
      assert prefixes[..n + 1] == prefixes[..n] + [prefixes[n]];
      if prefixes[n] != "" {
        ReverseSnoc(NonEmpty(prefixes[..n]), prefixes[n]);
        ps := [prefixes[n]] + ps;
      } else {
        assert NonEmpty(prefixes[..n]) + [] == NonEmpty(prefixes[..n]);
      }
      n := n + 1;
    }
    assert prefixes[..n] == prefixes;
    var table := CopyProperties(properties);
    var os: seq<string> := [];
    n := 0;
    while n < |origins|
      invariant n <= |origins|
      invariant os == Reverse(origins[..n])
    {
      ReverseSnoc(origins[..n], origins[n]);
      assert origins[..n + 1] == origins[..n] + [origins[n]];
      os := [origins[n]] + os;
      n := n + 1;
    }
    assert origins[..n] == origins;
    e := Entry(name, uri, ps, os, table, useAdditionalData);
  }

  /** Does this entry answer to the given name: by one of its prefixes or exactly. */
  predicate Matches(e: Entry, name: string) {
    (exists i | 0 <= i < |e.prefixes| :: StartsWith(name, e.prefixes[i])) || e.name == name
  }

  /** GCompareFunc_match_registry_app_name, which walks the prefixes first. */
  method MatchName(e: Entry, name: string) returns (matched: bool)
    ensures matched <==> Matches(e, name)
  {
    matched := false;
    var n := 0;
    while n < |e.prefixes|
      invariant n <= |e.prefixes| && !matched
      invariant forall i | 0 <= i < n :: !StartsWith(name, e.prefixes[i])
    {
      if StartsWith(name, e.prefixes[n]) {
        matched := true;
        break;
      }
      n := n + 1;
    }
    if !matched {
      matched := e.name == name;
    }
  }

  /** No list of origins admits every caller; otherwise some entry must be a suffix. */
  predicate AllowsOrigin(e: Entry, header: Option<string>) {
    e.origins == []
    || (header.Some? && exists i | 0 <= i < |e.origins| :: EndsWith(header.value, e.origins[i]))
  }

  /** gdial_app_registry_is_allowed_origin. */
  method IsAllowedOrigin(e: Entry, header: Option<string>) returns (allowed: bool)
    ensures allowed <==> AllowsOrigin(e, header)
  {
    if e.origins == [] {
      return true;
    }
    allowed := false;
    var n := 0;
    while n < |e.origins|
      invariant n <= |e.origins| && !allowed
      invariant header.Some? ==> forall i | 0 <= i < n :: !EndsWith(header.value, e.origins[i])
    {
      if header.Some? && EndsWith(header.value, e.origins[n]) {
        return true;
      }
      n := n + 1;
    }
  }

  // ---------- the ordered list ----------

  /** g_list_find_custom with the name matcher: the first entry that answers, or |reg|. */
  function FindEntry(reg: seq<Entry>, name: string): (k: nat)
    ensures k <= |reg| && (k < |reg| ==> Matches(reg[k], name))
    ensures forall i | 0 <= i < k :: !Matches(reg[i], name)
  {
    if reg == [] || Matches(reg[0], name) then 0 else 1 + FindEntry(reg[1..], name)
  }

  predicate IsRegistered(reg: seq<Entry>, name: string) {
    FindEntry(reg, name) < |reg|
  }

  function Register(reg: seq<Entry>, e: Entry): seq<Entry> {
    if IsRegistered(reg, e.name) then reg else [e] + reg
  }

  function RemoveAt<T>(s: seq<T>, k: nat): seq<T>
    requires k < |s|
  {
    s[..k] + s[k + 1..]
  }

  /** An older entry never answers to the name of a newer one. */
  ghost predicate OrderedRegistry(reg: seq<Entry>) {
    forall i, j | 0 <= i < j < |reg| :: !Matches(reg[j], reg[i].name)
  }

  /** Registering keeps the order, and a name that was accepted resolves to its own
      entry; names in an ordered registry are pairwise distinct. */
  lemma RegisterKeepsOrder(reg: seq<Entry>, e: Entry)
    requires OrderedRegistry(reg)
    ensures OrderedRegistry(Register(reg, e))
    ensures IsRegistered(Register(reg, e), e.name)
    ensures !IsRegistered(reg, e.name) ==> Register(reg, e)[FindEntry(Register(reg, e), e.name)] == e
    ensures forall i, j | 0 <= i < j < |reg| :: reg[i].name != reg[j].name
  {
    var r := Register(reg, e);
    if !IsRegistered(reg, e.name) {
      assert r[0] == e && Matches(r[0], e.name);
      assert forall j | 1 <= j < |r| :: r[j] == reg[j - 1];
    }
  }

  /** So does taking any entry out. */
  lemma RemoveKeepsOrder(reg: seq<Entry>, k: nat)
    requires OrderedRegistry(reg) && k < |reg|
    ensures OrderedRegistry(RemoveAt(reg, k))
  {
    var r := RemoveAt(reg, k);
    forall i, j | 0 <= i < j < |r| ensures !Matches(r[j], r[i].name) {
      assert r[i] == reg[if i < k then i else i + 1];
      assert r[j] == reg[if j < k then j else j + 1];
    }
  }

  /** Which entry answers to an entry's own name: itself, exactly when no newer
      entry has a prefix of that name. */
  lemma ResolvesToItselfIff(reg: seq<Entry>, k: nat)
    requires OrderedRegistry(reg) && k < |reg|
    ensures FindEntry(reg, reg[k].name) == k
            <==> forall i, p | 0 <= i < k && 0 <= p < |reg[i].prefixes| ::
                   !StartsWith(reg[k].name, reg[i].prefixes[p])
  {
    var f := FindEntry(reg, reg[k].name);
    assert Matches(reg[k], reg[k].name);
    RegisterKeepsOrder(reg, reg[k]);
    if f < k {
      assert Matches(reg[f], reg[k].name) && reg[f].name != reg[k].name;
    }
    if forall i | 0 <= i < k :: !Matches(reg[i], reg[k].name) {
      assert f >= k;
    }
  }

  // ---------- registering a whole configuration ----------

  const MAX_NUM_OF_APPS: nat := 64

  /** RegisterAppEntry, with the URI its UUID file yields. */
  datatype ConfigEntry = ConfigEntry(name: string, prefix: string, cors: string, allowStop: bool, uri: string)

  function EntryOf(c: ConfigEntry): Entry {
    Entry(c.name, c.uri, if c.prefix == "" then [] else [c.prefix], [c.cors],
          map["allowStop" := if c.allowStop then "true" else "false"], true)
  }

  function EntriesOf(cfg: seq<ConfigEntry>): seq<Entry> {
    seq(|cfg|, i requires 0 <= i < |cfg| => EntryOf(cfg[i]))
  }

  /** The part of a configuration that is looked at. */
  function Head(cfg: seq<ConfigEntry>): seq<ConfigEntry> {
    if |cfg| <= MAX_NUM_OF_APPS then cfg else cfg[..MAX_NUM_OF_APPS]
  }

  /** registerApplications: builds the list by prepending, up to 64 entries. */
  method BuildAppList(cfg: seq<ConfigEntry>) returns (appList: seq<Entry>)
    ensures appList == Reverse(EntriesOf(Head(cfg)))
  {
    appList := [];
    var i := 0;
    while i < |cfg|
      invariant i <= |Head(cfg)|
      invariant appList == Reverse(EntriesOf(Head(cfg)[..i]))
      decreases |cfg| - i
    {
      if MAX_NUM_OF_APPS <= i {
        break;
      }
      var properties := map["allowStop" := if cfg[i].allowStop then "true" else "false"];
      var e := NewEntry(cfg[i].name, cfg[i].uri, [cfg[i].prefix], properties, true, [cfg[i].cors]);
      SingletonLists(cfg[i]);
      ReverseSnoc(EntriesOf(Head(cfg)[..i]), e);
      assert EntriesOf(Head(cfg)[..i + 1]) == EntriesOf(Head(cfg)[..i]) + [e];
      appList := [e] + appList;
      i := i + 1;
    }
    assert Head(cfg)[..i] == Head(cfg);
  }

  lemma SingletonLists(c: ConfigEntry)
    ensures Reverse(NonEmpty([c.prefix])) == EntryOf(c).prefixes && Reverse([c.cors]) == EntryOf(c).origins
  {
    assert [c.prefix][1..] == [] && [c.cors][1..] == [];
    assert NonEmpty([c.prefix]) == EntryOf(c).prefixes;
    assert EntryOf(c).prefixes != [] ==> EntryOf(c).prefixes[1..] == [];
  }

  function RegisterEach(reg: seq<Entry>, es: seq<Entry>): seq<Entry>
    decreases |es|
  {
    if es == [] then reg else RegisterEach(Register(reg, es[0]), es[1..])
  }

  lemma {:induction false} RegisterEachSnoc(reg: seq<Entry>, es: seq<Entry>, e: Entry)
    ensures RegisterEach(reg, es + [e]) == Register(RegisterEach(reg, es), e)
    decreases |es|
  {
    if es == [] {
      assert es + [e] == [e] && [e][1..] == [];
    } else {
      RegisterEachSnoc(Register(reg, es[0]), es[1..], e);
      assert (es + [e])[0] == es[0] && (es + [e])[1..] == es[1..] + [e];
    }
  }

  /** No kept later entry answers to the name of entry i. */
  ghost predicate Unblocked(es: seq<Entry>, keep: seq<bool>, i: nat)
    requires |keep| == |es| && i < |es|
  {
    forall j | i < j < |es| :: keep[j] ==> !Matches(es[j], es[i].name)
  }

  /** keep[i] says that entry i is kept: exactly when it is not blocked. */
  ghost predicate IsSelection(es: seq<Entry>, keep: seq<bool>) {
    |keep| == |es| && forall i | 0 <= i < |es| :: keep[i] <==> Unblocked(es, keep, i)
  }

  function Select(es: seq<Entry>, keep: seq<bool>): seq<Entry>
    requires |keep| == |es|
  {
    if es == [] then [] else (if keep[0] then [es[0]] else []) + Select(es[1..], keep[1..])
  }

  lemma {:induction false} SelectMember(es: seq<Entry>, keep: seq<bool>, name: string)
    requires |keep| == |es|
    ensures IsRegistered(Select(es, keep), name)
            <==> exists j | 0 <= j < |es| :: keep[j] && Matches(es[j], name)
    decreases |es|
  {
    if es != [] {
      SelectMember(es[1..], keep[1..], name);
      var rest := Select(es[1..], keep[1..]);
      var all := Select(es, keep);
      if keep[0] {
        assert all == [es[0]] + rest && all[1..] == rest;
      } else {
        assert all == rest;
      }
      if j :| 0 <= j < |es[1..]| && keep[1..][j] && Matches(es[1..][j], name) {
        assert keep[j + 1] && Matches(es[j + 1], name);
      }
      if j :| 0 <= j < |es| && keep[j] && Matches(es[j], name) {
        if j > 0 {
          assert keep[1..][j - 1] && Matches(es[1..][j - 1], name);
        }
      }
    }
  }

  lemma UnblockedTail(es: seq<Entry>, keep: seq<bool>, i: nat)
    requires |keep| == |es| && 0 < i < |es|
    ensures Unblocked(es, keep, i) <==> Unblocked(es[1..], keep[1..], i - 1)
  {
    var t, k := es[1..], keep[1..];
    assert forall j | 0 <= j < |t| :: k[j] == keep[j + 1] && t[j] == es[j + 1];
    assert forall j | 0 < j < |es| :: keep[j] == k[j - 1] && es[j] == t[j - 1];
  }

  lemma SelectionTail(es: seq<Entry>, keep: seq<bool>)
    requires es != [] && |keep| == |es|
    ensures IsSelection(es, keep)
            <==> IsSelection(es[1..], keep[1..]) && (keep[0] <==> Unblocked(es, keep, 0))
  {
    forall i | 0 < i < |es| ensures Unblocked(es, keep, i) <==> Unblocked(es[1..], keep[1..], i - 1) {
      UnblockedTail(es, keep, i);
    }
    assert forall i | 0 < i < |es| :: keep[i] == keep[1..][i - 1];
    forall i | 0 <= i < |es[1..]|
      ensures keep[1..][i] == keep[i + 1]
      ensures Unblocked(es, keep, i + 1) <==> Unblocked(es[1..], keep[1..], i)
    {
      UnblockedTail(es, keep, i + 1);
    }
  }

  /** Re-registration, end to end.  Configuration entries are prepended to a list
      (first reversal), the list is registered front to back by prepending (second
      reversal) with duplicates refused: the registry is the kept entries in
      configuration order. */
  lemma {:induction false} ReregistrationResult(es: seq<Entry>, keep: seq<bool>)
    requires IsSelection(es, keep)
    ensures RegisterEach([], Reverse(es)) == Select(es, keep)
    decreases |es|
  {
    if es != [] {
      SelectionTail(es, keep);
      ReregistrationResult(es[1..], keep[1..]);
      RegisterEachSnoc([], Reverse(es[1..]), es[0]);
      SelectMember(es[1..], keep[1..], es[0].name);
      assert forall j | 0 <= j < |es[1..]| :: es[1..][j] == es[j + 1] && keep[1..][j] == keep[j + 1];
      assert forall j | 0 < j < |es| :: es[j] == es[1..][j - 1] && keep[j] == keep[1..][j - 1];
    }
  }

  /** The selection exists for every configuration, so the result above always applies. */
  lemma {:induction false} SelectionExists(es: seq<Entry>) returns (keep: seq<bool>)
    ensures IsSelection(es, keep)
    decreases |es|
  {
    if es == [] {
      keep := [];
    } else {
      var k := SelectionExists(es[1..]);
      keep := [false] + k;
      if Unblocked(es, keep, 0) {
        keep := [true] + k;
      }
      assert keep[1..] == k;
      SelectionTail(es, keep);
    }
  }
}
