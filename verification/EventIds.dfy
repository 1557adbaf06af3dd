/**
 Event identifiers: poll events carry a hash-derived UUID (internal/app/reconciler.go),
 webhook events a readable text (internal/app/webhook.go).
 */
module EventIds {
  import opened Basics
  import opened Model
  import opened Text
  import opened Statuses

  type Digest = s: seq<bv8> | |s| == 32 witness seq(32, i => 0)

  /** SHA-256 is a parameter: any function to 32 bytes. */
  type Hash = string -> Digest

  /** The 16 bytes of a UUID: the digest's first half with the version and variant bits set. */
  function UuidBytes(d: Digest): (b: seq<bv8>)
    ensures |b| == 16
  {
    d[..16][6 := (d[6] & 0x0f) | 0x40][8 := (d[8] & 0x3f) | 0x80]
  }

  function HexDigit(v: bv8): char {
    if v == 0 then '0' else if v == 1 then '1' else if v == 2 then '2' else if v == 3 then '3'
    else if v == 4 then '4' else if v == 5 then '5' else if v == 6 then '6' else if v == 7 then '7'
    else if v == 8 then '8' else if v == 9 then '9' else if v == 10 then 'a' else if v == 11 then 'b'
    else if v == 12 then 'c' else if v == 13 then 'd' else if v == 14 then 'e' else 'f'
  }

  /** The lower-case hexadecimal text of a byte sequence. */
  function Hex(b: seq<bv8>): (s: string)
    ensures |s| == 2 * |b|
    ensures forall i :: 0 <= i < |b| ==> s[2 * i] == HexDigit(b[i] >> 4) && s[2 * i + 1] == HexDigit(b[i] & 0x0f)
  {
    if b == [] then ""
    else
      var rest := Hex(b[..|b| - 1]);
      rest + [HexDigit(b[|b| - 1] >> 4), HexDigit(b[|b| - 1] & 0x0f)]
  }

  function Layout(b: seq<bv8>): (s: string)
    requires |b| == 16
    ensures |s| == 36
  {
    Hex(b[0..4]) + "-" + Hex(b[4..6]) + "-" + Hex(b[6..8]) + "-" + Hex(b[8..10]) + "-" + Hex(b[10..16])
  }

  function DeterministicUuid(sha: Hash, value: string): string {
    Layout(UuidBytes(sha(value)))
  }

  /** The in-place form: two bytes of a local buffer are overwritten, then printed. */
  method FormatUuid(sha: Hash, value: string) returns (s: string)
    ensures s == DeterministicUuid(sha, value)
  {
    var sum := sha(value);
    var b := new bv8[16](i requires 0 <= i < 16 => sum[i]);
    b[6] := (b[6] & 0x0f) | 0x40;
    b[8] := (b[8] & 0x3f) | 0x80;
    assert b[..] == UuidBytes(sum);
    s := Hex(b[0..4]) + "-" + Hex(b[4..6]) + "-" + Hex(b[6..8]) + "-" + Hex(b[8..10]) + "-" + Hex(b[10..16]);
    assert b[0..4] == b[..][0..4] && b[4..6] == b[..][4..6] && b[6..8] == b[..][6..8];
    assert b[8..10] == b[..][8..10] && b[10..16] == b[..][10..16];
  }

  function PollSeed(key: PaymentKey, raw: string): string {
    "poll:" + key.connection + ":" + key.id + ":" + ToUpper(raw)
  }

  function PollId(sha: Hash, key: PaymentKey, raw: string): string {
    DeterministicUuid(sha, PollSeed(key, raw))
  }

  function HookId(id: string, raw: string): string {
    "binancepay:" + id + ":" + ToLower(raw)
  }

  /** Two different texts with the same UUID bytes. */
  predicate Collision(sha: Hash, a: string, b: string) {
    a != b && UuidBytes(sha(a)) == UuidBytes(sha(b))
  }

  lemma HexDigitInjective(v: bv8, w: bv8)
    requires v < 16 && w < 16 && HexDigit(v) == HexDigit(w)
    ensures v == w
  {
  }

  lemma NibblesDetermineByte(v: bv8, w: bv8)
    requires v >> 4 == w >> 4 && v & 0x0f == w & 0x0f
    ensures v == w
  {
    assert v == ((v >> 4) << 4) | (v & 0x0f);
    assert w == ((w >> 4) << 4) | (w & 0x0f);
  }

  lemma NibblesSmall(v: bv8)
    ensures v >> 4 < 16 && v & 0x0f < 16
  {
  }

  lemma HexInjective(a: seq<bv8>, b: seq<bv8>)
    requires Hex(a) == Hex(b)
    ensures a == b
  {
    forall i | 0 <= i < |a| ensures |a| == |b| && a[i] == b[i] {
      assert Hex(a)[2 * i] == Hex(b)[2 * i] && Hex(a)[2 * i + 1] == Hex(b)[2 * i + 1];
      NibblesSmall(a[i]);
      NibblesSmall(b[i]);
      HexDigitInjective(a[i] >> 4, b[i] >> 4);
      HexDigitInjective(a[i] & 0x0f, b[i] & 0x0f);
      NibblesDetermineByte(a[i], b[i]);
    }
  }

  /** Each part of a joined text stands where the lengths before it say. */
  lemma JoinedParts(p: string, q: string, r: string, u: string, v: string)
    requires |p| == 8 && |q| == |r| == |u| == 4 && |v| == 12
    ensures var s := p + "-" + q + "-" + r + "-" + u + "-" + v;
      && |s| == 36 && s[0..8] == p && s[9..13] == q && s[14..18] == r && s[19..23] == u && s[24..36] == v
      && s[8] == '-' && s[13] == '-' && s[18] == '-' && s[23] == '-'
  {
    var s1 := p + "-";
    var s2 := s1 + q + "-";
    var s3 := s2 + r + "-";
    var s4 := s3 + u + "-";
    var s := s4 + v;
    assert s[..24] == s4 && s[24..] == v;
    assert s4[..19] == s3 && s4[19..23] == u && s4[23] == '-';
    assert s3[..14] == s2 && s3[14..18] == r && s3[18] == '-';
    assert s2[..9] == s1 && s2[9..13] == q && s2[13] == '-';
    assert s1[..8] == p && s1[8] == '-';
    assert s[19..23] == s4[19..23] && s[14..18] == s3[14..18] && s[9..13] == s2[9..13] && s[0..8] == s1[..8];
  }

  lemma LayoutParts(b: seq<bv8>)
    requires |b| == 16
    ensures var s := Layout(b);
      && s[0..8] == Hex(b[0..4]) && s[9..13] == Hex(b[4..6]) && s[14..18] == Hex(b[6..8])
      && s[19..23] == Hex(b[8..10]) && s[24..36] == Hex(b[10..16])
      && s[8] == s[13] == s[18] == s[23] == '-'
  {
    JoinedParts(Hex(b[0..4]), Hex(b[4..6]), Hex(b[6..8]), Hex(b[8..10]), Hex(b[10..16]));
  }

  lemma LayoutInjective(a: seq<bv8>, b: seq<bv8>)
    requires |a| == |b| == 16 && Layout(a) == Layout(b)
    ensures a == b
  {
    LayoutParts(a);
    LayoutParts(b);
    HexInjective(a[0..4], b[0..4]);
    HexInjective(a[4..6], b[4..6]);
    HexInjective(a[6..8], b[6..8]);
    HexInjective(a[8..10], b[8..10]);
    HexInjective(a[10..16], b[10..16]);
    forall i | 0 <= i < 16 ensures a[i] == b[i] {
      if i < 4 {
        assert a[0..4][i] == b[0..4][i];
      } else if i < 6 {
        assert a[4..6][i - 4] == b[4..6][i - 4];
      } else if i < 8 {
        assert a[6..8][i - 6] == b[6..8][i - 6];
      } else if i < 10 {
        assert a[8..10][i - 8] == b[8..10][i - 8];
      } else {
        assert a[10..16][i - 10] == b[10..16][i - 10];
      }
    }
  }

  lemma VersionAndVariantNibbles(v: bv8)
    ensures ((v & 0x0f) | 0x40) >> 4 == 4
    ensures 8 <= ((v & 0x3f) | 0x80) >> 4 <= 11
  {
  }

  /** Every poll id is laid out as RFC 9562 sections 4.1 and 4.2 require: version 4, variant 10xx. */
  lemma UuidLayout(sha: Hash, value: string)
    ensures var s := DeterministicUuid(sha, value);
      && |s| == 36
      && s[8] == s[13] == s[18] == s[23] == '-'
      && s[14] == '4'
      && s[19] in "89ab"
  {
    var d := sha(value);
    var b := UuidBytes(d);
    LayoutParts(b);
    VersionAndVariantNibbles(d[6]);
    VersionAndVariantNibbles(d[8]);
    assert b[6..8][0] == b[6] && b[8..10][0] == b[8];
    var s := Layout(b);
    assert s[14] == s[14..18][0] && s[19] == s[19..23][0];
    assert s[19] == HexDigit(b[8] >> 4);
    assert "89ab"[0] == '8' && "89ab"[1] == '9' && "89ab"[2] == 'a' && "89ab"[3] == 'b';
  }

  /** Where the digits of byte i stand, behind the dashes before it. */
  function Column(i: nat): nat {
    2 * i + (if i < 4 then 0 else if i < 6 then 1 else if i < 8 then 2 else if i < 10 then 3 else 4)
  }

  lemma PartDigits(s: string, b: seq<bv8>, lo: nat, hi: nat, from: nat, i: nat)
    requires lo <= i < hi <= |b| && from + 2 * (hi - lo) <= |s|
    requires s[from..from + 2 * (hi - lo)] == Hex(b[lo..hi])
    ensures s[from + 2 * (i - lo)] == HexDigit(b[i] >> 4) && s[from + 2 * (i - lo) + 1] == HexDigit(b[i] & 0x0f)
  {
    var part := Hex(b[lo..hi]);
    assert s[from + 2 * (i - lo)] == part[2 * (i - lo)] && s[from + 2 * (i - lo) + 1] == part[2 * (i - lo) + 1];
    assert b[lo..hi][i - lo] == b[i];
  }

  lemma LayoutDigits(b: seq<bv8>, i: nat)
    requires |b| == 16 && i < 16
    ensures Layout(b)[Column(i)] == HexDigit(b[i] >> 4) && Layout(b)[Column(i) + 1] == HexDigit(b[i] & 0x0f)
  {
    LayoutParts(b);
    var lo, hi, from :=
      if i < 4 then 0 else if i < 6 then 4 else if i < 8 then 6 else if i < 10 then 8 else 10,
      if i < 4 then 4 else if i < 6 then 6 else if i < 8 then 8 else if i < 10 then 10 else 16,
      if i < 4 then 0 else if i < 6 then 9 else if i < 8 then 14 else if i < 10 then 19 else 24;
    PartDigits(Layout(b), b, lo, hi, from, i);
  }

  lemma HexDigits(v: bv8)
    requires v < 16
    ensures HexDigit(v) == "0123456789abcdef"[v as int]
  {
  }

  lemma MarkedNibbles(v: bv8)
    ensures ((v & 0x0f) | 0x40) & 0x0f == v & 0x0f
    ensures ((v & 0x3f) | 0x80) >> 4 == 8 + ((v >> 4) & 3) && ((v & 0x3f) | 0x80) & 0x0f == v & 0x0f
  {
  }

  /**
   A poll id spells the first half of the seed's digest in hexadecimal, byte after byte, with the
   version digit and the two variant bits put in.
   */
  lemma PollIdDigits(sha: Hash, k: PaymentKey, raw: string, i: nat)
    requires i < 16
    ensures var d, id := sha("poll:" + k.connection + ":" + k.id + ":" + ToUpper(raw)), PollId(sha, k, raw);
      && |id| == 36
      && id[Column(i)] == (if i == 6 then '4'
                           else "0123456789abcdef"[(if i == 8 then 8 + ((d[i] >> 4) & 3) else d[i] >> 4) as int])
      && id[Column(i) + 1] == "0123456789abcdef"[(d[i] & 0x0f) as int]
  {
    var d := sha("poll:" + k.connection + ":" + k.id + ":" + ToUpper(raw));
    var b := UuidBytes(d);
    LayoutDigits(b, i);
    NibblesSmall(b[i]);
    HexDigits(b[i] >> 4);
    HexDigits(b[i] & 0x0f);
    MarkedNibbles(d[i]);
    VersionAndVariantNibbles(d[i]);
  }

  // ---- Injectivity ---------------------------------------------------------------

  predicate ColonFree(s: string) {
    ':' !in s
  }

  lemma CutAtLastColon(x: string, a: string, y: string, b: string)
    requires ColonFree(a) && ColonFree(b) && x + ":" + a == y + ":" + b
    ensures a == b && x == y
  {
    var s, t := x + ":" + a, y + ":" + b;
    assert s[|x|] == ':' && t[|y|] == ':';
    assert x == s[..|x|] && y == t[..|y|];
    assert a == s[|x| + 1..] && b == t[|y| + 1..];
  }

  lemma FinalColonFree(raw: string)
    requires Final(raw)
    ensures ColonFree(ToUpper(raw))
  {
  }

  /** The text in front of the status in a poll seed. */
  function Place(k: PaymentKey): string {
    k.connection + ":" + k.id
  }

  /** One connection id with a colon begins the other. */
  predicate Overlap(c: string, d: string) {
    c + ":" <= d || d + ":" <= c
  }

  lemma PrefixedPlaces(c: string, p: string, d: string, q: string)
    requires |c| < |d| && c + ":" + p == d + ":" + q
    ensures c + ":" <= d
  {
    var s, t := c + ":" + p, d + ":" + q;
    assert s[..|c| + 1] == c + ":" && t[..|d|] == d;
    assert d[..|c| + 1] == t[..|c| + 1];
  }

  lemma SamePlace(k: PaymentKey, l: PaymentKey)
    requires Place(k) == Place(l) && !Overlap(k.connection, l.connection)
    ensures k == l
  {
    var c, d := k.connection, l.connection;
    if |c| < |d| {
      PrefixedPlaces(c, k.id, d, l.id);
    } else if |d| < |c| {
      PrefixedPlaces(d, l.id, c, k.id);
    } else {
      assert c == Place(k)[..|c|] && d == Place(l)[..|c|];
      assert k.id == Place(k)[|c| + 1..] && l.id == Place(l)[|c| + 1..];
    }
  }

  /** For overlapping connections, a payment id of each that shares its place with the other's. */
  function SharedIds(c: string, d: string): (string, string)
    requires Overlap(c, d)
  {
    if c + ":" <= d then (d[|c| + 1..] + ":", "") else ("", c[|d| + 1..] + ":")
  }

  lemma SharedPlace(c: string, d: string)
    requires Overlap(c, d)
    ensures var ids := SharedIds(c, d); Place(PaymentKey(c, ids.0)) == Place(PaymentKey(d, ids.1))
  {
    var ids := SharedIds(c, d);
    if c + ":" <= d {
      assert d == c + ":" + d[|c| + 1..];
      assert Place(PaymentKey(c, ids.0)) == d + ":" + "";
    } else {
      assert c == d + ":" + c[|d| + 1..];
      assert Place(PaymentKey(d, ids.1)) == c + ":" + "";
    }
  }

  /** Payments of two connections can share a place exactly when one connection id with a colon begins the other. */
  lemma ConnectionsConfusedExactly(c: string, d: string)
    requires c != d
    ensures (exists p, q :: Place(PaymentKey(c, p)) == Place(PaymentKey(d, q))) <==> Overlap(c, d)
  {
    if Overlap(c, d) {
      SharedPlace(c, d);
    } else {
      forall p, q ensures Place(PaymentKey(c, p)) != Place(PaymentKey(d, q)) {
        if Place(PaymentKey(c, p)) == Place(PaymentKey(d, q)) {
          SamePlace(PaymentKey(c, p), PaymentKey(d, q));
        }
      }
    }
  }

  /** Poll seeds of final statuses coincide exactly for one place and folded status. */
  lemma PollSeedsExactly(k: PaymentKey, raw: string, k': PaymentKey, raw': string)
    requires Final(raw) && Final(raw')
    ensures PollSeed(k, raw) == PollSeed(k', raw') <==> Place(k) == Place(k') && EqualFold(raw, raw')
  {
    var x, y := "poll:" + Place(k), "poll:" + Place(k');
    SeedParts(k, raw);
    SeedParts(k', raw');
    if PollSeed(k, raw) == PollSeed(k', raw') {
      FinalColonFree(raw);
      FinalColonFree(raw');
      CutAtLastColon(x, ToUpper(raw), y, ToUpper(raw'));
      assert Place(k) == x[5..] && Place(k') == y[5..];
    }
  }

  lemma SeedParts(k: PaymentKey, raw: string)
    ensures PollSeed(k, raw) == "poll:" + Place(k) + ":" + ToUpper(raw)
  {
    assert "poll:" + k.connection + ":" + k.id == "poll:" + Place(k);
  }

  /**
   Poll ids coincide exactly for one place and folded status, or on a collision of the truncated
   hash.
   */
  lemma PollIdsExactly(sha: Hash, k: PaymentKey, raw: string, k': PaymentKey, raw': string)
    requires Final(raw) && Final(raw')
    ensures PollId(sha, k, raw) == PollId(sha, k', raw') <==>
              (Place(k) == Place(k') && EqualFold(raw, raw')) || Collision(sha, PollSeed(k, raw), PollSeed(k', raw'))
  {
    PollSeedsExactly(k, raw, k', raw');
    if PollId(sha, k, raw) == PollId(sha, k', raw') {
      LayoutInjective(UuidBytes(sha(PollSeed(k, raw))), UuidBytes(sha(PollSeed(k', raw'))));
    }
  }

  /** No connection of the set overlaps another, which a configuration can check. */
  predicate Unambiguous(connections: set<string>) {
    forall c, d :: c in connections && d in connections && c != d ==> !Overlap(c, d)
  }

  /** Payments of the set's connections are told apart by their places. */
  ghost predicate PlacesDiffer(connections: set<string>) {
    forall k: PaymentKey, l: PaymentKey ::
      k.connection in connections && l.connection in connections && Place(k) == Place(l) ==> k == l
  }

  /** A configuration's payments have different places if and only if no connection overlaps another. */
  lemma PlacesDifferExactly(connections: set<string>)
    ensures PlacesDiffer(connections) <==> Unambiguous(connections)
  {
    if Unambiguous(connections) {
      forall k: PaymentKey, l: PaymentKey |
        k.connection in connections && l.connection in connections && Place(k) == Place(l)
        ensures k == l
      {
        SamePlace(k, l);
      }
    } else {
      var c, d :| c in connections && d in connections && c != d && Overlap(c, d);
      SharedPlace(c, d);
      var ids := SharedIds(c, d);
      assert PaymentKey(c, ids.0) != PaymentKey(d, ids.1);
    }
  }

  /** Among unambiguous connections, poll ids coincide exactly for one payment and folded status, or on a collision. */
  lemma PollIdInjective(sha: Hash, connections: set<string>, k: PaymentKey, raw: string, k': PaymentKey, raw': string)
    requires Unambiguous(connections) && k.connection in connections && k'.connection in connections
    requires Final(raw) && Final(raw')
    ensures PollId(sha, k, raw) == PollId(sha, k', raw') <==>
              (k == k' && EqualFold(raw, raw')) || Collision(sha, PollSeed(k, raw), PollSeed(k', raw'))
  {
    PollIdsExactly(sha, k, raw, k', raw');
    PlacesDifferExactly(connections);
  }

  /** Of any two overlapping connections, two payments share every poll id, whatever the hash. */
  lemma OverlapsConfuse(sha: Hash, c: string, d: string, raw: string)
    requires Overlap(c, d)
    ensures var ids := SharedIds(c, d); PollId(sha, PaymentKey(c, ids.0), raw) == PollId(sha, PaymentKey(d, ids.1), raw)
  {
    SharedPlace(c, d);
    var ids := SharedIds(c, d);
    SeedParts(PaymentKey(c, ids.0), raw);
    SeedParts(PaymentKey(d, ids.1), raw);
  }

  /** No webhook id is a poll id: its second letter is not a hexadecimal digit. */
  lemma HookIdsAreNotPollIds(sha: Hash, id: string, raw: string, k: PaymentKey, raw': string)
    ensures HookId(id, raw) != PollId(sha, k, raw')
  {
    var b := UuidBytes(sha(PollSeed(k, raw')));
    LayoutParts(b);
    var s := Layout(b);
    assert s[1] == s[0..8][1] && s[1] == HexDigit(b[0..4][0] & 0x0f);
    assert HookId(id, raw)[1] == 'i';
  }

  /** Webhook ids name a payment id and a folded status, when the status has no colon. */
  lemma HookIdInjective(id: string, raw: string, id': string, raw': string)
    requires ColonFree(raw) && ColonFree(raw')
    ensures HookId(id, raw) == HookId(id', raw') <==> id == id' && EqualFold(raw, raw')
  {
    FoldsAgree(raw, raw');
    if HookId(id, raw) == HookId(id', raw') {
      var x, y := "binancepay:" + id, "binancepay:" + id';
      assert HookId(id, raw) == x + ":" + ToLower(raw) && HookId(id', raw') == y + ":" + ToLower(raw');
      LowerColonFree(raw);
      LowerColonFree(raw');
      CutAtLastColon(x, ToLower(raw), y, ToLower(raw'));
      assert x[11..] == id && y[11..] == id';
    }
  }

  lemma LowerColonFree(s: string)
    requires ColonFree(s)
    ensures ColonFree(ToLower(s))
  {
    forall i | 0 <= i < |s| ensures ToLower(s)[i] != ':' {
      assert s[i] in s;
    }
  }
}
