/**
 How gdial_rest_http_server_apps_callback (server/gdial-rest.c) takes a request
 path apart: g_strsplit into at most four pieces, one loop that copies the pieces
 into 64-byte buffers, and a second loop that checks the copies against the pieces.
 */
module Uri {
  import opened Common

  const COMPONENT_MAX_LEN: nat := 64

  /** g_strsplit(s, "/", max). */
  function Split(s: string, max: nat): seq<string> {
    if s == "" then [] else SplitRest(s, max)
  }

  function SplitRest(s: string, max: nat): (pieces: seq<string>)
    ensures 1 <= |pieces| && (max >= 1 ==> |pieces| <= max)
    decreases max
  {
    var n := Find(s, '/', 0);
    if max <= 1 || n == |s| then [s] else [s[..n]] + SplitRest(s[n + 1..], max - 1)
  }

  function Join(pieces: seq<string>): string {
    if pieces == [] then ""
    else if |pieces| == 1 then pieces[0]
    else pieces[0] + "/" + Join(pieces[1..])
  }

  /** g_strlcpy into a component buffer: at most 63 bytes are kept. */
  function Copied(s: string): string {
    if |s| < COMPONENT_MAX_LEN then s else s[..COMPONENT_MAX_LEN - 1]
  }

  /** Exactly the first 63 bytes are kept. */
  lemma CopiedKeeps63(s: string)
    ensures Copied(s) == if |s| <= 63 then s else s[..63]
  {
  }

  /** `PastEnd`: the second loop walks off the vector of pieces. */
  datatype Outcome =
    | Accepted(base: string, appName: string, instance: string, lastElem: string, elementNum: nat)
    | Rejected
    | PastEnd

  predicate Fits(piece: string) {
    0 < |piece| < COMPONENT_MAX_LEN
  }

  /** Some pieces that fit, then nothing but empty ones, at least one of them. */
  ghost predicate EndsInEmptyPieces(pieces: seq<string>) {
    exists k :: 0 <= k < |pieces|
      && (forall i | 0 <= i < k :: Fits(pieces[i]))
      && pieces[k] == ""
      && (forall i | k <= i < |pieces| :: pieces[i] == "")
  }

  function Rejoin(o: Outcome): string
    requires o.Accepted?
  {
    o.base + "/" + o.appName + (if o.elementNum > 2 then "/" + o.instance else "")
    + (if o.elementNum > 3 then "/" + o.lastElem else "")
  }

  /** The outcome a vector of pieces must have. */
  ghost predicate Decides(p: seq<string>, appsUri: string, r: Outcome)
    requires appsUri != ""
  {
    && (r.Accepted? <==> |p| >= 2 && p[0] == appsUri[1..] && forall i | 0 <= i < |p| :: Fits(p[i]))
    && (r == PastEnd <==> EndsInEmptyPieces(p))
    && (r.Accepted? ==> r == Accepted(p[0], p[1], if |p| > 2 then p[2] else "", p[|p| - 1], |p|))
  }

  /** The two loops.  A path is accepted exactly when it has two to four pieces,
      each non-empty and short enough for its buffer, and the first is the server's
      own; the copies are then the pieces themselves.  The second loop runs off the
      vector exactly when fitting pieces are followed by empty ones only. */
  method SplitUri(path: string, appsUri: string) returns (r: Outcome)
    requires path != "" && appsUri != ""
    ensures Decides(Split(path[1..], 4), appsUri, r)
  {
    var elements := Split(path[1..], 4);
    var copied := CopyElements(elements);
    r := CompareElements(elements, copied, appsUri);
  }

  /** Lines 810-838: base, app_name, instance and last_elem, in that order. */
  method CopyElements(elements: seq<string>) returns (copied: seq<string>)
    requires |elements| <= 4
    ensures |copied| == 4
    ensures forall t | 0 <= t < |elements| :: copied[t] == Copied(elements[t])
    ensures forall t | |elements| <= t < 3 :: copied[t] == ""
    ensures elements != [] ==> copied[3] == Copied(elements[|elements| - 1])
  {
    var base, appName, instance, lastElem := "", "", "", "";
    var i, j := 0, 0;
    while i < |elements|
      invariant i == j <= |elements|
      invariant base == if j > 0 then Copied(elements[0]) else ""
      invariant appName == if j > 1 then Copied(elements[1]) else ""
      invariant instance == if j > 2 then Copied(elements[2]) else ""
      invariant lastElem == if j > 0 then Copied(elements[j - 1]) else ""
    {
      if j == 0 {
        base := Copied(elements[i]);
      } else if j == 1 {
        appName := Copied(elements[i]);
      } else if j == 2 {
        instance := Copied(elements[i]);
      }
      lastElem := Copied(elements[i]);
      j := j + 1;
      i := i + 1;
    }
    copied := [base, appName, instance, lastElem];
  }

  /** Lines 846-868. */
  method CompareElements(elements: seq<string>, copied: seq<string>, appsUri: string) returns (r: Outcome)
    requires |elements| <= 4 == |copied| && appsUri != ""
    requires forall t | 0 <= t < |elements| :: copied[t] == Copied(elements[t])
    requires forall t | |elements| <= t < 3 :: copied[t] == ""
    requires elements != [] ==> copied[3] == Copied(elements[|elements| - 1])
    ensures Decides(elements, appsUri, r)
  {
    var i, j := 0, 0;
    while i < |elements| && i < 4
      invariant 0 <= i <= j <= |elements|
      invariant forall t | 0 <= t < i :: Fits(elements[t])
      invariant forall t | i <= t < j :: elements[t] == ""
      decreases |elements| - j
    {
      if j == |elements| {
        assert elements[i] == "";
        return PastEnd;
      }
      if elements[j] == "" {
        j := j + 1;
        continue;
      }
      if copied[i] != elements[j] {
        return Rejected;
      }
      j := j + 1;
      i := i + 1;
    }
    if i > 4 || i < 2 || copied[0] != appsUri[1..] || copied[1] == "" {
      return Rejected;
    }
    return Accepted(copied[0], copied[1], copied[2], copied[3], |elements|);
  }

  lemma {:induction false} JoinSplit(s: string, max: nat)
    ensures Join(SplitRest(s, max)) == s
    decreases max
  {
    var n := Find(s, '/', 0);
    if max > 1 && n < |s| {
      JoinSplit(s[n + 1..], max - 1);
      var rest := SplitRest(s[n + 1..], max - 1);
      var all := SplitRest(s, max);
      assert all[0] == s[..n] && all[1..] == rest;
      assert s == s[..n] + "/" + s[n + 1..];
    }
  }

  lemma JoinTwo(p: seq<string>)
    requires |p| >= 2
    ensures Join(p) == p[0] + "/" + Join(p[1..])
  {
  }

  /** No truncated name reaches the registry: putting the copies of an accepted path
      back together with "/" gives the path. */
  lemma AcceptedRejoins(path: string, appsUri: string, r: Outcome)
    requires path != "" && appsUri != "" && r.Accepted?
    requires Decides(Split(path[1..], 4), appsUri, r)
    ensures Rejoin(r) == path[1..]
  {
    var p := Split(path[1..], 4);
    JoinSplit(path[1..], 4);
    RejoinIsJoin(p, r);
  }

  lemma Regroup(a: string, b: string, c: string, d: string)
    ensures a + "/" + (b + "/" + c) == a + "/" + b + ("/" + c)
    ensures a + "/" + (b + "/" + (c + "/" + d)) == a + "/" + b + ("/" + c) + ("/" + d)
  {
  }

  lemma RejoinIsJoin(p: seq<string>, r: Outcome)
    requires 2 <= |p| <= 4 && r == Accepted(p[0], p[1], if |p| > 2 then p[2] else "", p[|p| - 1], |p|)
    ensures Rejoin(r) == Join(p)
  {
    JoinTwo(p);
    if |p| == 2 {
      assert Join(p[1..]) == p[1];
    } else {
      JoinTwo(p[1..]);
      assert p[1..][1..] == p[2..];
      Regroup(p[0], p[1], p[2], p[|p| - 1]);
      if |p| == 3 {
        assert Join(p[2..]) == p[2];
      } else {
        JoinTwo(p[2..]);
        assert p[2..][1..] == [p[3]];
      }
    }
  }

  /** Only the last piece of four can hold a "/". */
  lemma {:induction false} EarlierPiecesHaveNoSlash(s: string, max: nat, i: nat)
    requires i < |SplitRest(s, max)| && i + 1 < max
    ensures '/' !in SplitRest(s, max)[i]
    decreases max
  {
    var n := Find(s, '/', 0);
    if i > 0 {
      EarlierPiecesHaveNoSlash(s[n + 1..], max - 1, i - 1);
    }
  }

  lemma SplitFirst(a: string, rest: string, max: nat)
    requires '/' !in a && max >= 2
    ensures Split(a + "/" + rest, max) == SplitRest(a + "/" + rest, max) == [a] + SplitRest(rest, max - 1)
  {
    var s := a + "/" + rest;
    FindUnique(s, '/', 0, |a|);
    assert s[..|a|] == a && s[|a| + 1..] == rest;
  }

  lemma SplitTwo(a: string, b: string, max: nat)
    requires '/' !in a && '/' !in b && max >= 2
    ensures Split(a + "/" + b, max) == [a, b]
  {
    SplitFirst(a, b, max);
    FindUnique(b, '/', 0, |b|);
  }

  lemma {:induction false} LastPieceEmpty(s: string, max: nat)
    requires s != ""
    ensures var p := SplitRest(s, max); p[|p| - 1] == "" ==> s[|s| - 1] == '/'
    decreases max
  {
    var n := Find(s, '/', 0);
    if max > 1 && n < |s| {
      var rest := s[n + 1..];
      var p, q := SplitRest(s, max), SplitRest(rest, max - 1);
      assert p[|p| - 1] == q[|q| - 1];
      if rest != "" {
        LastPieceEmpty(rest, max - 1);
        assert s[|s| - 1] == rest[|rest| - 1];
      }
    }
  }

  /** A path that does not end in "/", as the comment at line 773 asks, never makes
      the second loop walk off the end. */
  lemma NoTrailingSlashStaysInside(path: string)
    requires |path| > 1 && path[|path| - 1] != '/'
    ensures !EndsInEmptyPieces(Split(path[1..], 4))
  {
    LastPieceEmpty(path[1..], 4);
    assert path[1..][|path[1..]| - 1] == path[|path| - 1];
  }
}
