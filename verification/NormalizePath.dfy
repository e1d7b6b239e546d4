/** `normalize_path`: three regex passes over a URL path. The passes are modelled as the
    regex engine runs them, left to right over the whole string, and then shown to be
    one map over the segments. */
module NormalizePath {

  // ---------- The three patterns ----------

  predicate Digit(c: char) {
    '0' <= c <= '9'
  }

  predicate Hex(c: char) {
    Digit(c) || 'a' <= c <= 'f' || 'A' <= c <= 'F'
  }

  predicate Dash(i: int) {
    i == 8 || i == 13 || i == 18 || i == 23
  }

  /** Character `c` fits position `i` of a UUID. */
  predicate UuidChar(i: int, c: char) {
    if Dash(i) then c == '-' else Hex(c)
  }

  predicate UuidAt(s: string) {
    |s| >= 36 && forall i :: 0 <= i < 36 ==> UuidChar(i, s[i])
  }

  datatype Pattern = Uuid | IntSegment | HexSegment

  predicate Fits(p: Pattern, c: char) {
    if p == IntSegment then Digit(c) else Hex(c)
  }

  function Least(p: Pattern): nat {
    if p == IntSegment then 1 else 16
  }

  /** How far the greedy repetition of a segment pattern reaches. */
  function Reach(p: Pattern, s: string): (n: nat)
    ensures n <= |s|
  {
    if s == "" || !Fits(p, s[0]) then 0 else 1 + Reach(p, s[1..])
  }

  /** `(?=/|$)`, where `$` also matches just before a final newline. */
  predicate EndsHere(s: string) {
    s == "" || s[0] == '/' || s == "\n"
  }

  /** Length of the match at the start of `s`; 0 when there is none. Giving back part of
      the repetition never helps: the lookahead would then face a digit. */
  function MatchLength(p: Pattern, s: string): (n: nat)
    ensures n <= |s|
  {
    if p == Uuid then (if UuidAt(s) then 36 else 0)
    else if s == "" || s[0] != '/' then 0
    else
      var n := Reach(p, s[1..]);
      if n >= Least(p) && EndsHere(s[1 + n..]) then 1 + n else 0
  }

  function Replacement(p: Pattern): string {
    if p == Uuid then ":id" else "/:id"
  }

  /** `re.sub`: replace the leftmost match, go on after it. */
  function Sub(p: Pattern, s: string): string
    decreases |s|
  {
    if s == "" then ""
    else
      var n := MatchLength(p, s);
      if n > 0 then Replacement(p) + Sub(p, s[n..]) else [s[0]] + Sub(p, s[1..])
  }

  function Normalize(path: string): string {
    Sub(HexSegment, Sub(IntSegment, Sub(Uuid, path)))
  }

  // ---------- Segments ----------

  /** The part of a path from its first slash on, as a list of segments. */
  function Tail(segs: seq<string>): string {
    if segs == [] then "" else "/" + (segs[0] + Tail(segs[1..]))
  }

  ghost predicate SlashFree(segs: seq<string>) {
    forall b :: b in segs ==> '/' !in b
  }

  /** A path as its text before the first slash and its segments. */
  function Split(path: string): (string, seq<string>) {
    if path == "" then ("", [])
    else
      var (h, s) := Split(path[1..]);
      if path[0] == '/' then ("", [h] + s) else ([path[0]] + h, s)
  }

  lemma {:induction false} SplitJoins(path: string)
    ensures var (h, s) := Split(path); path == h + Tail(s) && '/' !in h && SlashFree(s)
  {
    if path != "" {
      SplitJoins(path[1..]);
      var (h, s) := Split(path[1..]);
      assert path == [path[0]] + path[1..];
      assert ([h] + s)[1..] == s;
      assert "" + ("/" + (h + Tail(s))) == "/" + (h + Tail(s));
      assert [path[0]] + h + Tail(s) == [path[0]] + (h + Tail(s));
    }
  }

  lemma {:induction false} SplitOfJoin(h: string, s: seq<string>)
    requires '/' !in h && SlashFree(s)
    ensures Split(h + Tail(s)) == (h, s)
    decreases |s|, |h|
  {
    var t := h + Tail(s);
    if h != "" {
      assert t[1..] == h[1..] + Tail(s);
      SplitOfJoin(h[1..], s);
      assert [h[0]] + h[1..] == h;
    } else if s != [] {
      assert t == Tail(s) && t[1..] == s[0] + Tail(s[1..]);
      assert s[0] in s;
      SplitOfJoin(s[0], s[1..]);
      assert Split(t) == ("", [s[0]] + s[1..]) && [s[0]] + s[1..] == s;
    }
  }

  /** What follows a segment: nothing, or the slash of the next one. */
  ghost predicate Boundary(rest: string) {
    rest == "" || rest[0] == '/'
  }

  lemma TailIsBoundary(segs: seq<string>)
    ensures Boundary(Tail(segs)) && (Tail(segs) == "" <==> segs == [])
  {
  }

  // ---------- Pass one, segment by segment ----------

  lemma UuidStaysInside(a: string, rest: string)
    requires '/' !in a && Boundary(rest)
    ensures UuidAt(a + rest) <==> UuidAt(a)
  {
    var s := a + rest;
    if |a| < 36 <= |s| {
      assert s[|a|] == '/' && !UuidChar(|a|, s[|a|]);
    }
    if UuidAt(s) && |a| >= 36 {
      forall i | 0 <= i < 36
        ensures UuidChar(i, a[i])
      {
        assert a[i] == s[i];
      }
    }
  }

  lemma {:induction false} UuidPassAt(a: string, rest: string)
    requires '/' !in a && Boundary(rest)
    ensures Sub(Uuid, a + rest) == Sub(Uuid, a) + Sub(Uuid, rest)
    decreases |a|
  {
    var s := a + rest;
    if a == "" {
      assert s == rest;
    } else {
      UuidStaysInside(a, rest);
      if UuidAt(a) {
        assert s[36..] == a[36..] + rest;
        UuidPassAt(a[36..], rest);
      } else {
        assert s[1..] == a[1..] + rest;
        UuidPassAt(a[1..], rest);
      }
    }
  }

  function UuidSegments(segs: seq<string>): seq<string> {
    if segs == [] then [] else [Sub(Uuid, segs[0])] + UuidSegments(segs[1..])
  }

  lemma {:induction false} UuidKeepsSlashFree(a: string)
    requires '/' !in a
    ensures '/' !in Sub(Uuid, a)
    decreases |a|
  {
    if a != "" {
      UuidKeepsSlashFree(if UuidAt(a) then a[36..] else a[1..]);
    }
  }

  lemma SlashStartsNoUuid(rest: string)
    ensures Sub(Uuid, "/" + rest) == "/" + Sub(Uuid, rest)
  {
    var t := "/" + rest;
    assert !UuidChar(0, t[0]) && t[1..] == rest;
  }

  lemma {:induction false} UuidPass(head: string, segs: seq<string>)
    requires '/' !in head && SlashFree(segs)
    ensures Sub(Uuid, head + Tail(segs)) == Sub(Uuid, head) + Tail(UuidSegments(segs))
    ensures '/' !in Sub(Uuid, head) && SlashFree(UuidSegments(segs)) && |UuidSegments(segs)| == |segs|
    decreases |segs|
  {
    TailIsBoundary(segs);
    UuidPassAt(head, Tail(segs));
    UuidKeepsSlashFree(head);
    if segs != [] {
      assert segs[0] in segs;
      UuidPass(segs[0], segs[1..]);
      SlashStartsNoUuid(segs[0] + Tail(segs[1..]));
      assert UuidSegments(segs)[1..] == UuidSegments(segs[1..]);
    }
  }

  // ---------- Passes two and three, segment by segment ----------

  predicate AllFit(p: Pattern, b: string) {
    |b| >= Least(p) && forall i :: 0 <= i < |b| ==> Fits(p, b[i])
  }

  /** What a segment pass makes of one segment; a final newline is left standing. */
  function SegmentMap(p: Pattern, b: string, last: bool): string {
    if AllFit(p, b) then ":id"
    else if last && b != "" && b[|b| - 1] == '\n' && AllFit(p, b[..|b| - 1]) then ":id\n"
    else b
  }

  function MapSegments(p: Pattern, segs: seq<string>): seq<string> {
    if segs == [] then [] else [SegmentMap(p, segs[0], |segs| == 1)] + MapSegments(p, segs[1..])
  }

  lemma {:induction false} ReachIsMaximal(p: Pattern, s: string)
    ensures forall i :: 0 <= i < Reach(p, s) ==> Fits(p, s[i])
    ensures Reach(p, s) < |s| ==> !Fits(p, s[Reach(p, s)])
  {
    if s != "" && Fits(p, s[0]) {
      ReachIsMaximal(p, s[1..]);
      var n := Reach(p, s[1..]);
      assert forall i :: 1 <= i < 1 + n ==> s[i] == s[1..][i - 1];
    }
  }

  lemma {:induction false} ReachStops(p: Pattern, b: string, rest: string)
    requires '/' !in b && Boundary(rest)
    ensures Reach(p, b + rest) == Reach(p, b)
  {
    if b == "" {
      assert b + rest == rest;
    } else {
      assert (b + rest)[1..] == b[1..] + rest;
      ReachStops(p, b[1..], rest);
    }
  }

  /** Between slashes the segment patterns match nothing. */
  lemma {:induction false} SegmentPassSkips(p: Pattern, a: string, rest: string)
    requires p != Uuid && '/' !in a
    ensures Sub(p, a + rest) == a + Sub(p, rest)
  {
    if a == "" {
      assert a + rest == rest;
    } else {
      assert (a + rest)[1..] == a[1..] + rest;
      SegmentPassSkips(p, a[1..], rest);
    }
  }

  lemma ReachDecides(p: Pattern, b: string)
    requires p != Uuid
    ensures AllFit(p, b) <==> Reach(p, b) == |b| >= Least(p)
    ensures b != "" && !Fits(p, b[|b| - 1]) ==>
              (AllFit(p, b[..|b| - 1]) <==> Reach(p, b) == |b| - 1 >= Least(p))
  {
    ReachIsMaximal(p, b);
    if AllFit(p, b) && Reach(p, b) < |b| {
      assert false;
    }
    if b != "" && AllFit(p, b[..|b| - 1]) {
      assert forall i :: 0 <= i < |b| - 1 ==> b[..|b| - 1][i] == b[i];
    }
  }

  /** The match at a slash decides about exactly the segment that follows it. */
  lemma SegmentMatch(p: Pattern, b: string, rest: string)
    requires p != Uuid && '/' !in b && Boundary(rest)
    ensures var n := MatchLength(p, "/" + (b + rest));
            if AllFit(p, b) then n == 1 + |b|
            else if rest == "" && b != "" && b[|b| - 1] == '\n' && AllFit(p, b[..|b| - 1]) then n == |b|
            else n == 0
  {
    var s := "/" + (b + rest);
    assert s[1..] == b + rest;
    ReachStops(p, b, rest);
    ReachDecides(p, b);
    var n := Reach(p, b);
    assert s[1 + n..] == b[n..] + rest;
    if n == |b| {
      assert b[n..] + rest == rest;
    } else {
      assert (b[n..] + rest)[0] == b[n];
      assert b[n..] + rest == "\n" <==> rest == "" && n == |b| - 1 && b[n] == '\n';
    }
  }

  /** One step of `re.sub` that replaces, and one that does not. */
  lemma SubReplaces(p: Pattern, s: string, n: nat)
    requires n == MatchLength(p, s) > 0
    ensures Sub(p, s) == Replacement(p) + Sub(p, s[n..])
  {
  }

  lemma SubCopies(p: Pattern, c: char, s: string)
    requires MatchLength(p, [c] + s) == 0
    ensures Sub(p, [c] + s) == [c] + Sub(p, s)
  {
  }

  lemma Placeholder(x: string)
    ensures "/:id" + x == "/" + (":id" + x)
    ensures "/:id" + "\n" == "/" + (":id\n" + "")
  {
  }

  lemma SegmentPassAt(p: Pattern, b: string, rest: string)
    requires p != Uuid && '/' !in b && Boundary(rest)
    ensures Sub(p, "/" + (b + rest)) == "/" + (SegmentMap(p, b, rest == "") + Sub(p, rest))
  {
    SegmentMatch(p, b, rest);
    var s := "/" + (b + rest);
    var n := MatchLength(p, s);
    if n == 0 {
      SubCopies(p, '/', b + rest);
      SegmentPassSkips(p, b, rest);
    } else {
      SubReplaces(p, s, n);
      Placeholder(Sub(p, rest));
      if AllFit(p, b) {
        assert s[n..] == rest;
      } else {
        assert s[n..] == "\n" && Sub(p, rest) == "";
        NewlineIsKept(p);
      }
    }
  }

  lemma NewlineIsKept(p: Pattern)
    requires p != Uuid
    ensures Sub(p, "\n") == "\n"
  {
  }

  lemma {:induction false} SegmentPassTail(p: Pattern, segs: seq<string>)
    requires p != Uuid && SlashFree(segs)
    ensures Sub(p, Tail(segs)) == Tail(MapSegments(p, segs)) && |MapSegments(p, segs)| == |segs|
  {
    if segs != [] {
      assert segs[0] in segs;
      TailIsBoundary(segs[1..]);
      SegmentPassAt(p, segs[0], Tail(segs[1..]));
      SegmentPassTail(p, segs[1..]);
      assert MapSegments(p, segs)[1..] == MapSegments(p, segs[1..]);
    }
  }

  lemma {:induction false} MapKeepsSlashFree(p: Pattern, segs: seq<string>)
    requires SlashFree(segs)
    ensures SlashFree(MapSegments(p, segs))
  {
    if segs != [] {
      assert segs[0] in segs;
      MapKeepsSlashFree(p, segs[1..]);
    }
  }

  lemma SegmentPass(p: Pattern, head: string, segs: seq<string>)
    requires p != Uuid && '/' !in head && SlashFree(segs)
    ensures Sub(p, head + Tail(segs)) == head + Tail(MapSegments(p, segs))
    ensures SlashFree(MapSegments(p, segs)) && |MapSegments(p, segs)| == |segs|
  {
    SegmentPassSkips(p, head, Tail(segs));
    SegmentPassTail(p, segs);
    MapKeepsSlashFree(p, segs);
  }

  // ---------- All three passes are one map over the segments ----------

  function NormalSegment(b: string, last: bool): string {
    SegmentMap(HexSegment, SegmentMap(IntSegment, Sub(Uuid, b), last), last)
  }

  function NormalSegments(segs: seq<string>): seq<string> {
    if segs == [] then [] else [NormalSegment(segs[0], |segs| == 1)] + NormalSegments(segs[1..])
  }

  lemma {:induction false} ComposeMaps(segs: seq<string>)
    ensures MapSegments(HexSegment, MapSegments(IntSegment, UuidSegments(segs))) == NormalSegments(segs)
    ensures |UuidSegments(segs)| == |segs| == |MapSegments(IntSegment, UuidSegments(segs))|
  {
    if segs != [] {
      ComposeMaps(segs[1..]);
      var u := UuidSegments(segs);
      assert u[1..] == UuidSegments(segs[1..]);
      assert MapSegments(IntSegment, u)[1..] == MapSegments(IntSegment, u[1..]);
    }
  }

  /** For every path the three whole-string passes equal one map over its segments; the
      text before the first slash only loses its UUIDs. */
  lemma NormalizeIsSegmentwise(head: string, segs: seq<string>)
    requires '/' !in head && SlashFree(segs)
    ensures Normalize(head + Tail(segs)) == Sub(Uuid, head) + Tail(NormalSegments(segs))
    ensures '/' !in Sub(Uuid, head) && SlashFree(NormalSegments(segs)) && |NormalSegments(segs)| == |segs|
  {
    UuidPass(head, segs);
    var h, u := Sub(Uuid, head), UuidSegments(segs);
    SegmentPass(IntSegment, h, u);
    SegmentPass(HexSegment, h, MapSegments(IntSegment, u));
    ComposeMaps(segs);
  }

  function Slashes(s: string): nat {
    if s == "" then 0 else (if s[0] == '/' then 1 else 0) + Slashes(s[1..])
  }

  lemma {:induction false} CountSlashes(head: string, segs: seq<string>)
    requires '/' !in head && SlashFree(segs)
    ensures Slashes(head + Tail(segs)) == |segs|
    decreases |segs|, |head|
  {
    var s := head + Tail(segs);
    if head != "" {
      assert s[1..] == head[1..] + Tail(segs);
      CountSlashes(head[1..], segs);
    } else if segs != [] {
      assert s[1..] == segs[0] + Tail(segs[1..]);
      assert segs[0] in segs;
      CountSlashes(segs[0], segs[1..]);
    }
  }

  /** No path gains or loses a slash. */
  lemma SlashesAreKept(path: string)
    ensures Slashes(Normalize(path)) == Slashes(path)
  {
    SplitJoins(path);
    var (head, segs) := Split(path);
    NormalizeIsSegmentwise(head, segs);
    CountSlashes(head, segs);
    CountSlashes(Sub(Uuid, head), NormalSegments(segs));
  }

  lemma PlaceholderIsNoId(p: Pattern)
    ensures !AllFit(p, ":id") && !AllFit(p, ":id\n")
  {
    assert !Fits(p, ":id"[0]) && !Fits(p, ":id\n"[0]);
  }

  lemma NormalSegmentIsNoId(b: string, last: bool)
    ensures var n := NormalSegment(b, last);
            !AllFit(IntSegment, n) && !AllFit(HexSegment, n)
  {
    PlaceholderIsNoId(IntSegment);
    PlaceholderIsNoId(HexSegment);
  }

  /** After the first slash no all-digit segment and no hexadecimal segment of 16 or more
      characters is left, whatever the path. */
  lemma {:induction false} NoIdsRemain(segs: seq<string>)
    ensures forall n :: n in NormalSegments(segs) ==> !AllFit(IntSegment, n) && !AllFit(HexSegment, n)
  {
    if segs != [] {
      NormalSegmentIsNoId(segs[0], |segs| == 1);
      NoIdsRemain(segs[1..]);
    }
  }

  // ---------- What counts as an id ----------

  /** A number, or at least 16 hexadecimal digits. */
  ghost predicate IsId(b: string) {
    || (|b| >= 1 && forall i :: 0 <= i < |b| ==> '0' <= b[i] <= '9')
    || (|b| >= 16 && forall i :: 0 <= i < |b| ==> IsHexDigit(b[i]))
  }

  ghost predicate IsHexDigit(c: char) {
    '0' <= c <= '9' || 'a' <= c <= 'f' || 'A' <= c <= 'F'
  }

  lemma IdsFit(b: string)
    ensures AllFit(IntSegment, b) || AllFit(HexSegment, b) <==> IsId(b)
  {
    forall i | 0 <= i < |b|
      ensures (Fits(IntSegment, b[i]) <==> '0' <= b[i] <= '9') && (Fits(HexSegment, b[i]) <==> IsHexDigit(b[i]))
    {
    }
  }

  lemma TwoSegmentPasses(b: string, last: bool)
    ensures var id := (x: string) => AllFit(IntSegment, x) || AllFit(HexSegment, x);
            SegmentMap(HexSegment, SegmentMap(IntSegment, b, last), last)
            == if id(b) then ":id"
               else if last && b != "" && b[|b| - 1] == '\n' && id(b[..|b| - 1]) then ":id\n" else b
  {
    PlaceholderIsNoId(HexSegment);
    assert ":id\n"[..3] == ":id";
    if AllFit(HexSegment, b) {
      assert Hex(b[|b| - 1]);
    }
    if AllFit(IntSegment, b) {
      assert Digit(b[|b| - 1]);
    }
  }

  /** A segment without a UUID becomes the placeholder exactly when it is an id; of the last
      one a final newline stays. Everything else is left as it is. */
  lemma IdsAndNothingElse(b: string, last: bool)
    requires !HasUuid(b)
    ensures NormalSegment(b, last)
            == if IsId(b) then ":id"
               else if last && b != "" && b[|b| - 1] == '\n' && IsId(b[..|b| - 1]) then ":id\n" else b
  {
    PassOneShrinks(b);
    WithoutUuid(b);
    IdsFit(b);
    if b != "" {
      IdsFit(b[..|b| - 1]);
    }
    TwoSegmentPasses(b, last);
  }

  lemma {:induction false} WithoutUuid(s: string)
    requires !HasUuid(s)
    ensures Sub(Uuid, s) == s
  {
    if s != "" {
      WithoutUuid(s[1..]);
    }
  }

  /** The leftmost UUID of a text becomes the placeholder, and the scan goes on behind it. */
  lemma LeftmostUuidGoes(a: string, u: string, rest: string)
    requires UuidAt(u) && |u| == 36 && forall j :: 0 <= j < |a| ==> !UuidAt((a + u + rest)[j..])
    ensures Sub(Uuid, a + u + rest) == a + (":id" + Sub(Uuid, rest))
  {
    var s := a + u + rest;
    UnmatchedIsCopied(s, |a|);
    assert s[..|a|] == a && s[|a|..] == u + rest;
    assert UuidAt(u + rest) && (u + rest)[36..] == rest;
  }

  /** 8-4-4-4-12 hexadecimal digits. */
  lemma UuidShape(s: string)
    requires |s| == 36
    ensures UuidAt(s) <==>
            && s[8] == s[13] == s[18] == s[23] == '-'
            && forall i :: 0 <= i < 36 && i !in {8, 13, 18, 23} ==> IsHexDigit(s[i])
  {
    if UuidAt(s) {
      assert UuidChar(8, s[8]) && UuidChar(13, s[13]) && UuidChar(18, s[18]) && UuidChar(23, s[23]);
      assert forall i :: 0 <= i < 36 && i !in {8, 13, 18, 23} ==> UuidChar(i, s[i]);
    }
  }

  // ---------- When normalizing twice changes nothing ----------

  /** `r` continues the "d" of a placeholder into a UUID that pass one leaves standing. */
  predicate GluedTail(r: string) {
    && |r| >= 35
    && (forall i :: 0 <= i < 35 ==> UuidChar(i + 1, r[i]))
    && forall j :: 0 <= j < 35 ==> !UuidAt(r[j..])
  }

  /** Somewhere in the left-to-right scan a UUID is directly followed by such a tail. */
  predicate Glued(s: string)
    decreases |s|
  {
    s != "" && if UuidAt(s) then GluedTail(s[36..]) || Glued(s[36..]) else Glued(s[1..])
  }

  predicate HasUuid(s: string) {
    s != "" && (UuidAt(s) || HasUuid(s[1..]))
  }

  lemma MatchStartsWithColon(r: string)
    requires UuidAt(r)
    ensures |Sub(Uuid, r)| > 0 && Sub(Uuid, r)[0] == ':'
  {
  }

  lemma {:induction false} WithoutColonCopied(r: string, k: nat)
    requires k <= |Sub(Uuid, r)| && forall i :: 0 <= i < k ==> Sub(Uuid, r)[i] != ':'
    ensures k <= |r| && Sub(Uuid, r)[..k] == r[..k] && forall j :: 0 <= j < k ==> !UuidAt(r[j..])
    decreases k
  {
    if k > 0 {
      if UuidAt(r) {
        MatchStartsWithColon(r);
      }
      assert !UuidAt(r) && r[0..] == r;
      var t := Sub(Uuid, r[1..]);
      assert Sub(Uuid, r) == [r[0]] + t;
      assert forall i :: 0 <= i < k - 1 ==> t[i] == Sub(Uuid, r)[i + 1];
      WithoutColonCopied(r[1..], k - 1);
      assert Sub(Uuid, r)[..k] == [r[0]] + t[..k - 1];
      forall j | 0 <= j < k
        ensures !UuidAt(r[j..])
      {
        if j > 0 {
          assert r[j..] == r[1..][j - 1..];
        }
      }
    }
  }

  lemma {:induction false} UnmatchedIsCopied(r: string, k: nat)
    requires k <= |r| && forall j :: 0 <= j < k ==> !UuidAt(r[j..])
    ensures Sub(Uuid, r) == r[..k] + Sub(Uuid, r[k..])
    decreases k
  {
    if k > 0 {
      assert r[0..] == r && !UuidAt(r);
      forall j | 0 <= j < k - 1
        ensures !UuidAt(r[1..][j..])
      {
        assert r[1..][j..] == r[j + 1..];
      }
      UnmatchedIsCopied(r[1..], k - 1);
      assert r[1..][k - 1..] == r[k..] && r[..k] == [r[0]] + r[1..][..k - 1];
    } else {
      assert r[..0] == "" && r[0..] == r;
    }
  }

  lemma UuidHasNoColon(t: string)
    requires UuidAt(t)
    ensures forall i :: 0 <= i < 36 ==> t[i] != ':'
  {
  }

  /** A placeholder is completed to a UUID exactly by a glued tail. */
  lemma PlaceholderCompletes(r: string)
    ensures UuidAt("d" + Sub(Uuid, r)) <==> GluedTail(r)
  {
    var t := Sub(Uuid, r);
    var d := "d" + t;
    if UuidAt(d) {
      UuidHasNoColon(d);
      assert forall i :: 0 <= i < 35 ==> t[i] == d[i + 1];
      WithoutColonCopied(r, 35);
      forall i | 0 <= i < 35
        ensures UuidChar(i + 1, r[i])
      {
        assert r[i] == t[..35][i] == d[i + 1] && UuidChar(i + 1, d[i + 1]);
      }
    }
    if GluedTail(r) {
      UnmatchedIsCopied(r, 35);
      forall i | 0 <= i < 36
        ensures UuidChar(i, d[i])
      {
        if i > 0 {
          assert d[i] == t[i - 1] == r[..35][i - 1];
        }
      }
    }
  }

  /** Pass one creates no UUID from characters it only copied. */
  lemma CopyingCompletesNothing(c: char, r: string)
    requires !UuidAt([c] + r)
    ensures !UuidAt([c] + Sub(Uuid, r))
  {
    var t := Sub(Uuid, r);
    var u := [c] + t;
    if UuidAt(u) {
      UuidHasNoColon(u);
      assert forall i :: 0 <= i < 35 ==> t[i] == u[i + 1];
      WithoutColonCopied(r, 35);
      forall i | 0 <= i < 36
        ensures UuidChar(i, ([c] + r)[i])
      {
        if i > 0 {
          assert r[i - 1] == t[..35][i - 1] == u[i];
        }
        assert UuidChar(i, u[i]);
      }
    }
  }

  lemma PlaceholderStartsNoUuid(t: string)
    ensures HasUuid(":id" + t) <==> UuidAt("d" + t) || HasUuid(t)
  {
    var a, b, c := ":id" + t, "id" + t, "d" + t;
    assert a[1..] == b && b[1..] == c && c[1..] == t;
    assert !UuidChar(0, a[0]) && !UuidChar(0, b[0]);
    assert HasUuid(a) == HasUuid(b) && HasUuid(b) == HasUuid(c);
  }

  /** Pass one leaves a UUID standing exactly when the path is glued. */
  lemma {:induction false} LeftoverIffGlued(s: string)
    ensures HasUuid(Sub(Uuid, s)) <==> Glued(s)
    decreases |s|
  {
    if s != "" {
      if UuidAt(s) {
        LeftoverIffGlued(s[36..]);
        PlaceholderStartsNoUuid(Sub(Uuid, s[36..]));
        PlaceholderCompletes(s[36..]);
      } else {
        LeftoverIffGlued(s[1..]);
        assert s == [s[0]] + s[1..];
        CopyingCompletesNothing(s[0], s[1..]);
        assert ([s[0]] + Sub(Uuid, s[1..]))[1..] == Sub(Uuid, s[1..]);
      }
    }
  }

  lemma {:induction false} PassOneShrinks(s: string)
    ensures if HasUuid(s) then |Sub(Uuid, s)| < |s| else Sub(Uuid, s) == s
    decreases |s|
  {
    if s != "" {
      if UuidAt(s) {
        PassOneShrinks(s[36..]);
      } else {
        PassOneShrinks(s[1..]);
        assert s == [s[0]] + s[1..];
      }
    }
  }

  /** Running pass one twice is the same as running it once, unless the path is glued. */
  lemma PassOneTwice(s: string)
    ensures Sub(Uuid, Sub(Uuid, s)) == Sub(Uuid, s) <==> !Glued(s)
  {
    LeftoverIffGlued(s);
    PassOneShrinks(Sub(Uuid, s));
  }

  lemma ColonKeepsSegment(p: Pattern, b: string, last: bool)
    requires ':' in b
    ensures SegmentMap(p, b, last) == b
  {
  }

  lemma {:induction false} PassOneMarks(b: string)
    ensures HasUuid(b) ==> ':' in Sub(Uuid, b)
    decreases |b|
  {
    if b != "" && HasUuid(b) {
      if UuidAt(b) {
        assert Sub(Uuid, b)[0] == ":id"[0];
      } else {
        PassOneMarks(b[1..]);
      }
    }
  }

  lemma SegmentMapTwice(b: string, last: bool)
    requires !HasUuid(b)
    ensures NormalSegment(NormalSegment(b, last), last) == NormalSegment(b, last)
    ensures Sub(Uuid, Sub(Uuid, b)) == Sub(Uuid, b)
  {
    PassOneShrinks(b);
    var n := NormalSegment(b, last);
    if n != b {
      assert n == ":id" || n == ":id\n";
      assert n[0] == ':' && ':' in n;
      assert |n| < 36;
      NoUuidInShort(n);
      PassOneShrinks(n);
      ColonKeepsSegment(IntSegment, n, last);
      ColonKeepsSegment(HexSegment, n, last);
    }
  }

  lemma {:induction false} NoUuidInShort(s: string)
    requires |s| < 36
    ensures !HasUuid(s)
  {
    if s != "" {
      NoUuidInShort(s[1..]);
    }
  }

  /** One segment is stable exactly when pass one is. */
  lemma SegmentTwice(b: string, last: bool)
    ensures NormalSegment(NormalSegment(b, last), last) == NormalSegment(b, last)
            <==> Sub(Uuid, Sub(Uuid, b)) == Sub(Uuid, b)
  {
    if HasUuid(b) {
      PassOneMarks(b);
      var u := Sub(Uuid, b);
      ColonKeepsSegment(IntSegment, u, last);
      ColonKeepsSegment(HexSegment, u, last);
      PassOneShrinks(u);
      if HasUuid(u) {
        PassOneMarks(u);
        ColonKeepsSegment(IntSegment, Sub(Uuid, u), last);
        ColonKeepsSegment(HexSegment, Sub(Uuid, u), last);
      } else {
        ColonKeepsSegment(IntSegment, u, last);
      }
    } else {
      SegmentMapTwice(b, last);
    }
  }

  lemma {:induction false} SegmentsTwice(segs: seq<string>)
    ensures NormalSegments(NormalSegments(segs)) == NormalSegments(segs)
            <==> UuidSegments(UuidSegments(segs)) == UuidSegments(segs)
  {
    if segs != [] {
      var n, u, last := NormalSegments(segs), UuidSegments(segs), |segs| == 1;
      SegmentsTwice(segs[1..]);
      SegmentTwice(segs[0], last);
      assert n[1..] == NormalSegments(segs[1..]) && u[1..] == UuidSegments(segs[1..]);
      SameLength(segs[1..]);
      assert NormalSegments(n) == [NormalSegment(n[0], last)] + NormalSegments(n[1..]);
      assert UuidSegments(u) == [Sub(Uuid, u[0])] + UuidSegments(u[1..]);
      ConsEqual(NormalSegment(n[0], last), NormalSegments(n[1..]), n);
      ConsEqual(Sub(Uuid, u[0]), UuidSegments(u[1..]), u);
    }
  }

  lemma ConsEqual(x: string, xs: seq<string>, s: seq<string>)
    requires s != []
    ensures [x] + xs == s <==> x == s[0] && xs == s[1..]
  {
  }

  lemma {:induction false} SameLength(segs: seq<string>)
    ensures |NormalSegments(segs)| == |segs|
  {
    if segs != [] {
      SameLength(segs[1..]);
    }
  }

  /** Normalizing is idempotent on exactly the paths that are not glued. */
  lemma IdempotentIffNotGlued(path: string)
    ensures Normalize(Normalize(path)) == Normalize(path) <==> !Glued(path)
  {
    SplitJoins(path);
    var (head, segs) := Split(path);
    var h := Sub(Uuid, head);
    NormalizeIsSegmentwise(head, segs);
    NormalizeIsSegmentwise(h, NormalSegments(segs));
    UuidPass(head, segs);
    UuidPass(h, UuidSegments(segs));
    SegmentsTwice(segs);
    PassOneTwice(path);
    SplitOfJoin(h, NormalSegments(segs));
    SplitOfJoin(Sub(Uuid, h), NormalSegments(NormalSegments(segs)));
    SplitOfJoin(h, UuidSegments(segs));
    SplitOfJoin(Sub(Uuid, h), UuidSegments(UuidSegments(segs)));
  }

  /** Every UUID of the path is a whole segment. */
  ghost predicate WholeUuids(segs: seq<string>) {
    forall b :: b in segs ==> !HasUuid(b) || (UuidAt(b) && |b| == 36)
  }

  lemma WholeUuidIsStable(b: string)
    requires !HasUuid(b) || (UuidAt(b) && |b| == 36)
    ensures Sub(Uuid, Sub(Uuid, b)) == Sub(Uuid, b)
  {
    PassOneShrinks(b);
    if HasUuid(b) {
      assert b[36..] == "" && ":id" + "" == ":id" && Sub(Uuid, b) == ":id";
      NoUuidInShort(":id");
      PassOneShrinks(":id");
    }
  }

  lemma {:induction false} WholeUuidsAreStable(segs: seq<string>)
    requires WholeUuids(segs)
    ensures UuidSegments(UuidSegments(segs)) == UuidSegments(segs)
  {
    if segs != [] {
      assert segs[0] in segs;
      WholeUuidIsStable(segs[0]);
      WholeUuidsAreStable(segs[1..]);
      assert UuidSegments(segs)[1..] == UuidSegments(segs[1..]);
    }
  }

  /** In particular it is idempotent on every path whose UUIDs fill whole segments. */
  lemma IdempotentOnWholeUuids(head: string, segs: seq<string>)
    requires '/' !in head && SlashFree(segs) && WholeUuids([head] + segs)
    ensures Normalize(Normalize(head + Tail(segs))) == Normalize(head + Tail(segs))
  {
    assert ([head] + segs)[0] in [head] + segs && ([head] + segs)[1..] == segs;
    WholeUuidIsStable(head);
    WholeUuidsAreStable(segs);
    UuidPass(head, segs);
    UuidPass(Sub(Uuid, head), UuidSegments(segs));
    PassOneTwice(head + Tail(segs));
    IdempotentIffNotGlued(head + Tail(segs));
  }

  /** Text glued to a UUID can make the first result normalize further. */
  lemma GluedExample()
    ensures var uuid := seq(36, i => if Dash(i) then '-' else '0');
            var tail := seq(35, i => if Dash(i + 1) then '-' else '0');
            Normalize(Normalize(uuid + tail)) != Normalize(uuid + tail)
  {
    var uuid, tail := seq(36, i => if Dash(i) then '-' else '0'), seq(35, i => if Dash(i + 1) then '-' else '0');
    var s := uuid + tail;
    assert UuidAt(s) && s[36..] == tail;
    assert GluedTail(tail);
    assert Glued(s);
    IdempotentIffNotGlued(s);
  }
}
