/**
 The dial-data printer and parser of server/gdial-util.c.

 The printer writes one line `key SP value CR LF` for each entry of a hash table,
 in whatever order the table is walked.  The parser reads the text back with
 sscanf and advances its offset by the lengths it has read, so it only works while
 that offset stays on the start of a line.  A `char` stands for one byte, and
 lengths count bytes.
 */
module DialData {
  import opened Common

  const MAX_KV_LEN: nat := 255

  /** isspace in the C locale, which is also g_ascii_isspace plus vertical tab. */
  predicate IsSpace(c: char) {
    c == ' ' || c == '\t' || c == '\n' || c == '\U{0B}' || c == '\U{0C}' || c == '\r'
  }

  /** What "%s" reads: neither white space nor the terminating NUL. */
  predicate IsTokenChar(c: char) {
    !IsSpace(c) && c != '\0'
  }

  predicate IsToken(s: string) {
    forall i | 0 <= i < |s| :: IsTokenChar(s[i])
  }

  /** A key or value that a line can carry: one to 255 token characters. */
  predicate Good(s: string) {
    0 < |s| <= MAX_KV_LEN && IsToken(s)
  }

  predicate AllGood(es: seq<Pair>) {
    forall i | 0 <= i < |es| :: Good(es[i].key) && Good(es[i].value)
  }

  // ---------- the printer ----------

  function Line(e: Pair, delimiter: string, newline: bool): string {
    e.key + delimiter + e.value + (if newline then "\r\n" else "")
  }

  function PrintWith(es: seq<Pair>, delimiter: string, newline: bool): string {
    if es == [] then "" else Line(es[0], delimiter, newline) + PrintWith(es[1..], delimiter, newline)
  }

  /** The text of a dial-data file. */
  function Print(es: seq<Pair>): string {
    PrintWith(es, " ", true)
  }

  lemma {:induction false} PrintSnoc(es: seq<Pair>, e: Pair, delimiter: string, newline: bool)
    ensures PrintWith(es + [e], delimiter, newline)
            == PrintWith(es, delimiter, newline) + Line(e, delimiter, newline)
    decreases |es|
  {
    if es == [] {
      assert es + [e] == [e] && [e][1..] == [];
      assert PrintWith([], delimiter, newline) == "";
    } else {
      PrintSnoc(es[1..], e, delimiter, newline);
      assert (es + [e])[0] == es[0] && (es + [e])[1..] == es[1..] + [e];
    }
  }

  /** gdial_util_str_str_hashtable_to_string, with `es` the order the hash table is walked in. */
  method ToString(es: seq<Pair>, delimiter: Option<string>, newline: bool) returns (text: string, length: nat)
    ensures text == PrintWith(es, if delimiter == None then " " else delimiter.value, newline)
    ensures length == |text|
  {
    var d := if delimiter == None then " " else delimiter.value;
    text := "";
    var n := 0;
    while n < |es|
      invariant n <= |es|
      invariant text == PrintWith(es[..n], d, newline)
    {
      text := text + (es[n].key + d + es[n].value + (if newline then "\r\n" else ""));
      PrintSnoc(es[..n], es[n], d, newline);
      assert es[..n] + [es[n]] == es[..n + 1];
      n := n + 1;
    }
    assert es[..n] == es;
    length := |text|;
  }

  // ---------- the parser ----------

  /** How much leading white space a scan directive skips. */
  function SpaceLen(s: string): (n: nat)
    ensures n <= |s|
  {
    if s == "" || !IsSpace(s[0]) then 0 else 1 + SpaceLen(s[1..])
  }

  /** How much "%<max>s" reads. */
  function TokenLen(s: string, max: nat): (n: nat)
    ensures n <= |s| && n <= max
  {
    if s == "" || max == 0 || !IsTokenChar(s[0]) then 0 else 1 + TokenLen(s[1..], max - 1)
  }

  /** The second "%255s": what the value buffer holds after it; `prior` is what it
      held before and keeps when there is nothing left to read. */
  function ValueAfter(s: string, prior: string): string {
    var r := s[SpaceLen(s)..];
    var n := TokenLen(r, MAX_KV_LEN);
    if n == 0 then prior else r[..n]
  }

  /** One sscanf with the format "%255s %255s\r\n"; None when not even a key is read. */
  function Scan(s: string, prior: string): Option<Pair> {
    var r := s[SpaceLen(s)..];
    var k := TokenLen(r, MAX_KV_LEN);
    if k == 0 then None else Some(Pair(r[..k], ValueAfter(r[k..], prior)))
  }

  lemma {:induction false} TokenLenReads(s: string, max: nat)
    ensures IsToken(s[..TokenLen(s, max)])
    decreases max
  {
    if s != "" && max > 0 && IsTokenChar(s[0]) {
      TokenLenReads(s[1..], max - 1);
      var n := TokenLen(s[1..], max - 1);
      assert s[..n + 1] == [s[0]] + s[1..][..n];
    }
  }

  /** A scan reads good keys, and leaves a good value or the one it found. */
  lemma ScanReads(s: string, prior: string)
    requires Scan(s, prior).Some?
    ensures var p := Scan(s, prior).value; Good(p.key) && (p.value == prior || Good(p.value))
  {
    var r := s[SpaceLen(s)..];
    TokenLenReads(r, MAX_KV_LEN);
    var q := r[TokenLen(r, MAX_KV_LEN)..];
    TokenLenReads(q[SpaceLen(q)..], MAX_KV_LEN);
  }

  /** How far the offset moves after a scan. */
  function Advance(p: Pair): nat {
    |p.key| + |p.value| + 3
  }

  function Drop(s: string, n: nat): string {
    if n <= |s| then s[n..] else ""
  }

  /** The parse loop from a given offset: `rest` is the text from there on. */
  function ParseFrom(rest: string, prior: string, t: map<string, string>): map<string, string>
    decreases |rest|
  {
    if rest == "" then t
    else match Scan(rest, prior)
      case None => t
      case Some(p) => ParseFrom(Drop(rest, Advance(p)), p.value, t[p.key := p.value])
  }

  function Parse(text: string): map<string, string> {
    ParseFrom(text, "", map[])
  }

  /** Keys a scan can read and values it can leave in the buffer. */
  predicate Readable(t: map<string, string>) {
    forall k | k in t :: Good(k) && |t[k]| <= MAX_KV_LEN && IsToken(t[k])
  }

  lemma DropDrop(s: string, m: nat, n: nat)
    ensures Drop(Drop(s, m), n) == Drop(s, m + n)
  {
  }

  /** gdial_util_str_str_hashtable_from_string. */
  method FromString(text: string, ht: map<string, string>) returns (t: map<string, string>)
    ensures t == ParseFrom(text, "", ht)
  {
    ghost var rest := text;
    t := ht;
    var value := "";
    var used := 0;
    while used < |text|
      invariant rest == Drop(text, used) && ParseFrom(rest, value, t) == ParseFrom(text, "", ht)
      decreases |text| - used
    {
      var r := Scan(text[used..], value);
      if r == None {
        return;
      }
      DropDrop(text, used, Advance(r.value));
      rest := Drop(rest, Advance(r.value));
      var key := r.value.key;
      value := r.value.value;
      t := t[key := value];
      used := used + |key| + |value| + |" \r\n"|;
    }
  }

  /** On any text whatever, a scan that reads at least a key moves the offset by at
      least four bytes, so the loop ends; and whatever the text, what the parser
      inserts has good keys and readable values. */
  lemma ParseMakesProgress(text: string, used: nat, prior: string)
    requires used < |text|
    ensures Scan(text[used..], prior).Some? ==> Advance(Scan(text[used..], prior).value) >= 4
    ensures Readable(Parse(text))
  {
    if Scan(text[used..], prior).Some? {
      ScanReads(text[used..], prior);
    }
    ParseReadable(text, "", map[]);
  }

  // ---------- reading back one line ----------

  lemma {:induction false} TokenLenExact(s: string, tail: string, max: nat)
    requires IsToken(s) && |s| <= max
    requires tail == "" || !IsTokenChar(tail[0]) || |s| == max
    ensures TokenLen(s + tail, max) == |s|
    decreases |s|
  {
    if s == "" {
      assert s + tail == tail;
    } else {
      assert (s + tail)[0] == s[0] && (s + tail)[1..] == s[1..] + tail;
      TokenLenExact(s[1..], tail, max - 1);
    }
  }

  lemma ScanKey(k: string, rest: string, prior: string)
    requires Good(k) && (rest == "" || !IsTokenChar(rest[0]))
    ensures Scan(k + rest, prior) == Some(Pair(k, ValueAfter(rest, prior)))
  {
    var s := k + rest;
    assert s[0] == k[0];
    assert SpaceLen(s) == 0 && s[0..] == s;
    TokenLenExact(k, rest, MAX_KV_LEN);
    assert s[..|k|] == k && s[|k|..] == rest;
  }

  lemma {:induction false} SpaceLenBlank(blank: string, tail: string)
    requires forall i | 0 <= i < |blank| :: IsSpace(blank[i])
    requires tail == "" || !IsSpace(tail[0])
    ensures SpaceLen(blank + tail) == |blank| && (blank + tail)[|blank|..] == tail
    decreases |blank|
  {
    if blank == "" {
      assert blank + tail == tail;
    } else {
      SpaceLenBlank(blank[1..], tail);
      assert (blank + tail)[1..] == blank[1..] + tail;
    }
  }

  lemma ValueAfterBlank(v: string, tail: string, prior: string)
    requires Good(v) && (tail == "" || !IsTokenChar(tail[0]))
    ensures ValueAfter(" " + (v + tail), prior) == v
  {
    assert (v + tail)[0] == v[0];
    SpaceLenBlank(" ", v + tail);
    TokenLenExact(v, tail, MAX_KV_LEN);
    assert (v + tail)[..|v|] == v;
  }

  /** A good line is read back exactly, and the offset lands on the next line. */
  lemma ScanGoodLine(e: Pair, prior: string, tail: string)
    requires Good(e.key) && Good(e.value)
    ensures Scan(Line(e, " ", true) + tail, prior) == Some(e)
    ensures Drop(Line(e, " ", true) + tail, Advance(e)) == tail
  {
    var rest := " " + (e.value + ("\r\n" + tail));
    assert Line(e, " ", true) + tail == e.key + rest;
    ScanKey(e.key, rest, prior);
    ValueAfterBlank(e.value, "\r\n" + tail, prior);
    assert |Line(e, " ", true)| == Advance(e);
  }

  /** The loop invariant of the round trip: while every line is good the offset is
      always on an entry boundary. */
  lemma {:induction false} ParsePrinted(es: seq<Pair>, prior: string, t: map<string, string>)
    requires AllGood(es)
    ensures ParseFrom(Print(es), prior, t) == Insert(t, es)
    decreases |es|
  {
    if es != [] {
      ScanGoodLine(es[0], prior, Print(es[1..]));
      assert Print(es) != "" && Print(es) == Line(es[0], " ", true) + Print(es[1..]);
      ParsePrinted(es[1..], es[0].value, t[es[0].key := es[0].value]);
    }
  }

  // ---------- what the parser can never produce ----------

  lemma {:induction false} ParseReadable(rest: string, prior: string, t: map<string, string>)
    requires Readable(t) && |prior| <= MAX_KV_LEN && IsToken(prior)
    ensures Readable(ParseFrom(rest, prior, t))
    decreases |rest|
  {
    if rest != "" {
      match Scan(rest, prior)
      case None =>
      case Some(p) =>
        ScanReads(rest, prior);
        ParseReadable(Drop(rest, Advance(p)), p.value, t[p.key := p.value]);
    }
  }

  /** Once the value buffer has been filled it never becomes empty again. */
  lemma {:induction false} ParseNoEmptyValue(rest: string, prior: string, t: map<string, string>)
    requires prior != "" && forall k | k in t :: t[k] != ""
    ensures forall k | k in ParseFrom(rest, prior, t) :: ParseFrom(rest, prior, t)[k] != ""
    decreases |rest|
  {
    if rest != "" {
      match Scan(rest, prior)
      case None =>
      case Some(p) =>
        ScanReads(rest, prior);
        ParseNoEmptyValue(Drop(rest, Advance(p)), p.value, t[p.key := p.value]);
    }
  }

  /** A good key followed by at least one more token: the first scan reads a value. */
  lemma ScanFillsValue(k: string, blank: string, tail: string)
    requires Good(k) && blank != "" && forall i | 0 <= i < |blank| :: IsSpace(blank[i])
    requires tail != "" && IsTokenChar(tail[0])
    ensures var r := Scan(k + (blank + tail), ""); r.Some? && r.value.value != ""
  {
    ScanKey(k, blank + tail, "");
    SpaceLenBlank(blank, tail);
    assert TokenLen(tail, MAX_KV_LEN) > 0;
  }

  /** The one table with a bad entry that survives: a single good key with the
      empty value, which the zeroed value buffer happens to reproduce. */
  predicate LoneEmptyValue(es: seq<Pair>) {
    |es| == 1 && Good(es[0].key) && es[0].value == ""
  }

  /** The guard a caller can check: this table, walked in this order, can be printed
      and read back. */
  predicate Storable(es: seq<Pair>) {
    AllGood(es) || LoneEmptyValue(es)
  }

  lemma ParseLoneEmptyValue(es: seq<Pair>)
    requires LoneEmptyValue(es)
    ensures Parse(Print(es)) == Table(es)
  {
    var k := es[0].key;
    var text := Print(es);
    assert text == k + " \r\n" by {
      assert es[1..] == [] && Print([]) == "";
    }
    ScanKey(k, " \r\n", "");
    SpaceLenBlank(" \r\n", "");
    assert " \r\n" + "" == " \r\n";
    assert Drop(text, Advance(Pair(k, ""))) == "";
    assert Parse(text) == ParseFrom("", "", map[k := ""]);
    assert Insert(map[], es) == Insert(map[k := ""], es[1..]);
  }

  /** With two good keys or more the first scan reads a value, so no parsed value is empty. */
  lemma TwoEntriesNoEmptyValue(es: seq<Pair>)
    requires |es| >= 2 && Good(es[0].key) && Good(es[1].key) && IsToken(es[0].value)
    ensures forall k | k in Parse(Print(es)) :: Parse(Print(es))[k] != ""
  {
    var k, v := es[0].key, es[0].value;
    var rest := Print(es[1..]);
    var text := Print(es);
    assert rest[0] == es[1].key[0] by {
      assert rest == Line(es[1], " ", true) + Print(es[1..][1..]);
    }
    if v == "" {
      assert text == k + (" \r\n" + rest);
      ScanFillsValue(k, " \r\n", rest);
    } else {
      assert text == k + (" " + (v + "\r\n" + rest));
      assert (v + "\r\n" + rest)[0] == v[0];
      ScanFillsValue(k, " ", v + "\r\n" + rest);
    }
    ParseAfterFirst(text);
  }

  lemma ParseAfterFirst(text: string)
    requires text != "" && Scan(text, "").Some? && Scan(text, "").value.value != ""
    ensures forall k | k in Parse(text) :: Parse(text)[k] != ""
  {
    var p := Scan(text, "").value;
    var none: map<string, string> := map[];
    assert Parse(text) == ParseFrom(Drop(text, Advance(p)), p.value, none[p.key := p.value]);
    ParseNoEmptyValue(Drop(text, Advance(p)), p.value, none[p.key := p.value]);
  }

  /** The round trip, exactly.  For every table and every order it is walked in,
      parsing the printed text gives the table back if and only if all its keys and
      values are non-empty, free of white space and at most 255 bytes, or it is the
      lone good key with an empty value. */
  lemma RoundTripIff(es: seq<Pair>)
    requires DistinctKeys(es)
    ensures Parse(Print(es)) == Table(es) <==> Storable(es)
  {
    if AllGood(es) {
      ParsePrinted(es, "", map[]);
    } else if LoneEmptyValue(es) {
      ParseLoneEmptyValue(es);
    } else if Parse(Print(es)) == Table(es) {
      ParseReadable(Print(es), "", map[]);
      forall i | 0 <= i < |es|
        ensures Good(es[i].key) && IsToken(es[i].value) && |es[i].value| <= MAX_KV_LEN
      {
        TableHas(map[], es, i);
      }
      if |es| >= 2 {
        TwoEntriesNoEmptyValue(es);
        forall i | 0 <= i < |es| ensures Good(es[i].value) {
          TableHas(map[], es, i);
        }
      }
      assert false;
    }
  }

  /** A value with a blank in it is the simplest failure: only its first word comes back. */
  lemma BlankInValueIsLost()
    ensures !Storable([Pair("k", "a b")])
    ensures Parse(Print([Pair("k", "a b")])) != Table([Pair("k", "a b")])
  {
    assert "a b"[1] == ' ' && IsSpace(' ');
    RoundTripIff([Pair("k", "a b")]);
  }

  /** The file, byte for byte: one line "key value" with CR LF for each pair. */
  lemma PrintedLines(es: seq<Pair>)
    ensures Print([]) == ""
    ensures es != [] ==> Print(es) == es[0].key + " " + es[0].value + "\r\n" + Print(es[1..])
  {
  }

  /** A key or value that survives: 1 to 255 bytes, none of them NUL or white space. */
  predicate Plain(s: string) {
    1 <= |s| <= 255 && forall i | 0 <= i < |s| :: s[i] !in "\0 \t\n\U{0B}\U{0C}\r"
  }

  lemma StorableMeans(es: seq<Pair>)
    ensures Storable(es)
            <==> || (forall i | 0 <= i < |es| :: Plain(es[i].key) && Plain(es[i].value))
                 || (|es| == 1 && Plain(es[0].key) && es[0].value == "")
  {
    forall s: string ensures Good(s) <==> Plain(s) {
      GoodIsPlain(s);
    }
  }

  lemma GoodIsPlain(s: string)
    ensures Good(s) <==> Plain(s)
  {
    forall i | 0 <= i < |s| ensures IsTokenChar(s[i]) <==> s[i] !in "\0 \t\n\U{0B}\U{0C}\r" {
    }
  }

  // ---------- the other helpers ----------

  /** g_ascii_isgraph or g_ascii_isspace (which leaves out the vertical tab). */
  predicate Printable(c: char) {
    '\U{21}' <= c <= '\U{7E}' || c == ' ' || c == '\t' || c == '\n' || c == '\U{0C}' || c == '\r'
  }

  /** gdial_util_is_ascii_printable: false for the empty string. */
  method IsAsciiPrintable(data: string) returns (ok: bool)
    ensures ok <==> data != "" && forall i | 0 <= i < |data| :: Printable(data[i])
  {
    if data == "" {
      return false;
    }
    var length := |data|;
    while length > 0
      invariant 0 <= length <= |data|
      invariant forall i | length <= i < |data| :: Printable(data[i])
    {
      length := length - 1;
      if !Printable(data[length]) {
        return false;
      }
    }
    return true;
  }

  /** A hash table whose values may be NULL. */
  type NullableTable = map<string, Option<string>>

  /** g_hash_table_lookup: NULL for a missing key and for a NULL value alike. */
  function Lookup(t: NullableTable, k: string): Option<string> {
    if k in t then t[k] else None
  }

  ghost predicate IsWalk(es: seq<string>, t: NullableTable) {
    (forall k :: k in es <==> k in t) && forall i, j | 0 <= i < j < |es| :: es[i] != es[j]
  }

  /** gdial_util_str_str_hashtable_dup, walking the keys in the given order. */
  method Dup(src: NullableTable, keys: seq<string>) returns (dst: NullableTable)
    requires IsWalk(keys, src)
    ensures dst == src
  {
    dst := map[];
    var n := 0;
    while n < |keys|
      invariant n <= |keys|
      invariant forall k :: k in dst <==> k in keys[..n]
      invariant forall k | k in dst :: k in src && dst[k] == src[k]
    {
      assert keys[n] in keys;
      dst := dst[keys[n] := src[keys[n]]];
      assert keys[..n + 1] == keys[..n] + [keys[n]];
      n := n + 1;
    }
    assert keys[..n] == keys;
  }

  /** gdial_util_str_str_hashtable_equal, walking the first table in the given order. */
  method Equal(a: NullableTable, b: NullableTable, keys: seq<string>) returns (same: bool)
    requires IsWalk(keys, a)
    ensures same <==> |a| == |b| && forall k | k in a :: a[k] == Lookup(b, k)
  {
    if |a| != |b| {
      return false;
    }
    var n := 0;
    while n < |keys|
      invariant n <= |keys|
      invariant forall k | k in keys[..n] :: k in a && a[k] == Lookup(b, k)
    {
      assert keys[n] in keys;
      if a[keys[n]] != Lookup(b, keys[n]) {
        return false;
      }
      assert keys[..n + 1] == keys[..n] + [keys[n]];
      n := n + 1;
    }
    assert keys[..n] == keys;
    return true;
  }

  lemma {:induction false} SubsetSameSize<T>(a: set<T>, b: set<T>)
    requires a <= b && |a| == |b|
    ensures a == b
    decreases |a|
  {
    if a == {} {
    } else {
      var x :| x in a;
      SubsetSameSize(a - {x}, b - {x});
      assert a == (a - {x}) + {x} && b == (b - {x}) + {x};
    }
  }

  /** What `Equal` decides is equality of the tables, for every second table, if and
      only if the first one holds no NULL value. */
  lemma EqualDecidesEqualityIff(a: NullableTable)
    ensures (forall b: NullableTable :: (|a| == |b| && (forall k | k in a :: a[k] == Lookup(b, k))) <==> a == b)
            <==> forall k | k in a :: a[k] != None
  {
    if forall k | k in a :: a[k] != None {
      forall b: NullableTable | |a| == |b| && forall k | k in a :: a[k] == Lookup(b, k) ensures a == b {
        assert a.Keys <= b.Keys;
        assert |a.Keys| == |b.Keys|;
        SubsetSameSize(a.Keys, b.Keys);
      }
    } else {
      var k :| k in a && a[k] == None;
      var other := FreshKey(a.Keys);
      var smaller := a - {k};
      var b := smaller[other := None];
      assert b.Keys == (a.Keys - {k}) + {other};
      assert |b.Keys| == |a.Keys|;
      assert forall x | x in a :: a[x] == Lookup(b, x);
      assert other in b && other !in a;
    }
  }

  lemma {:induction false} FreshKey(keys: set<string>) returns (k: string)
    ensures k !in keys
    ensures forall x | x in keys :: |x| < |k|
    decreases |keys|
  {
    if keys == {} {
      k := "";
    } else {
      var x :| x in keys;
      var k' := FreshKey(keys - {x});
      k := k' + x + "x";
      forall y | y in keys ensures |y| < |k| {
        if y != x {
          assert y in keys - {x};
        }
      }
    }
  }
}
