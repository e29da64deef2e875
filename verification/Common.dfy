/** Small pieces shared by the whole model. */
module Common {

  datatype Option<+T> = None | Some(value: T)

  /** g_str_has_prefix. */
  predicate StartsWith(s: string, prefix: string) {
    prefix <= s
  }

  /** g_str_has_suffix. */
  predicate EndsWith(s: string, suffix: string) {
    |suffix| <= |s| && s[|s| - |suffix|..] == suffix
  }

  /** Index of the first c at or after i, or |s|. */
  function Find(s: string, c: char, i: nat): (r: nat)
    requires i <= |s|
    ensures i <= r <= |s| && (r < |s| ==> s[r] == c) && forall j | i <= j < r :: s[j] != c
    decreases |s| - i
  {
    if i == |s| || s[i] == c then i else Find(s, c, i + 1)
  }

  lemma FindUnique(s: string, c: char, i: nat, n: nat)
    requires i <= n <= |s| && (n < |s| ==> s[n] == c) && forall j | i <= j < n :: s[j] != c
    ensures Find(s, c, i) == n
  {
  }

  /** A key and its value, as a GLib hash table of strings hands them out. */
  datatype Pair = Pair(key: string, value: string)

  /** The table that results from inserting the pairs in order. */
  function Insert(t: map<string, string>, es: seq<Pair>): map<string, string>
    decreases |es|
  {
    if es == [] then t else Insert(t[es[0].key := es[0].value], es[1..])
  }

  function Table(es: seq<Pair>): map<string, string> {
    Insert(map[], es)
  }

  ghost predicate DistinctKeys(es: seq<Pair>) {
    forall i, j | 0 <= i < j < |es| :: es[i].key != es[j].key
  }

  lemma {:induction false} InsertSnoc(t: map<string, string>, es: seq<Pair>, e: Pair)
    ensures Insert(t, es + [e]) == Insert(t, es)[e.key := e.value]
    decreases |es|
  {
    if es == [] {
      assert es + [e] == [e];
      assert [e][1..] == [];
    } else {
      InsertSnoc(t[es[0].key := es[0].value], es[1..], e);
      assert (es + [e])[0] == es[0] && (es + [e])[1..] == es[1..] + [e];
    }
  }

  lemma {:induction false} InsertKeys(t: map<string, string>, es: seq<Pair>)
    ensures Insert(t, es).Keys == t.Keys + set i | 0 <= i < |es| :: es[i].key
    decreases |es|
  {
    if es != [] {
      var t' := t[es[0].key := es[0].value];
      InsertKeys(t', es[1..]);
      forall k ensures k in Insert(t, es).Keys <==> k in t.Keys + set i | 0 <= i < |es| :: es[i].key {
        if k in Insert(t, es).Keys && k !in t.Keys && k != es[0].key {
          var i :| 0 <= i < |es[1..]| && es[1..][i].key == k;
          assert es[i + 1].key == k;
        }
        if i :| 0 <= i < |es| && es[i].key == k {
          if i > 0 {
            assert es[1..][i - 1].key == k;
          }
        }
      }
    }
  }

  /** Later pairs do not disturb a key they do not mention. */
  lemma {:induction false} InsertKeeps(t: map<string, string>, es: seq<Pair>, k: string)
    requires k in t && forall i | 0 <= i < |es| :: es[i].key != k
    ensures k in Insert(t, es) && Insert(t, es)[k] == t[k]
    decreases |es|
  {
    if es != [] {
      InsertKeeps(t[es[0].key := es[0].value], es[1..], k);
    }
  }

  /** With distinct keys every pair is in the table. */
  lemma {:induction false} TableHas(t: map<string, string>, es: seq<Pair>, i: nat)
    requires DistinctKeys(es) && i < |es|
    ensures es[i].key in Insert(t, es) && Insert(t, es)[es[i].key] == es[i].value
    decreases |es|
  {
    var t' := t[es[0].key := es[0].value];
    if i == 0 {
      InsertKeeps(t', es[1..], es[0].key);
    } else {
      TableHas(t', es[1..], i - 1);
    }
  }
}
