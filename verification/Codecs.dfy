/** The text forms of page cursors (`id|sortValue`) and of opaque tokens (`id:secret`). */
module Codecs {
  import opened Common

  const UUID_LENGTH := 36
  const MIN_RAW_SECRET_LENGTH := 64

  predicate IsHex(c: char) {
    '0' <= c <= '9' || 'a' <= c <= 'f' || 'A' <= c <= 'F'
  }

  const DASHES := {8, 13, 18, 23}

  /** `isUUID` of validator 13.15: five groups of hexadecimal digits with dashes in between, with a
      version from 1 to 8 and the variant of RFC 9562, or the nil or the max UUID. */
  predicate IsUuid(s: string) {
    && |s| == UUID_LENGTH
    && (forall i :: 0 <= i < |s| ==> if i in DASHES then s[i] == '-' else IsHex(s[i]))
    && (|| ('1' <= s[14] <= '8' && s[19] in {'8', '9', 'a', 'b', 'A', 'B'})
        || (forall i :: 0 <= i < |s| && i !in DASHES ==> s[i] == '0')
        || (forall i :: 0 <= i < |s| && i !in DASHES ==> s[i] in {'f', 'F'}))
  }

  predicate HexGroup(s: string, length: nat) {
    |s| == length && forall c :: c in s ==> '0' <= c <= '9' || 'a' <= c <= 'f' || 'A' <= c <= 'F'
  }

  predicate Only(s: string, allowed: set<char>) {
    forall c :: c in s ==> c in allowed
  }

  /** Five groups of 8, 4, 4, 4 and 12 hexadecimal digits, joined by dashes. */
  ghost predicate Groups(s: string, a: string, b: string, c: string, d: string, e: string) {
    && s == a + "-" + b + "-" + c + "-" + d + "-" + e
    && HexGroup(a, 8) && HexGroup(b, 4) && HexGroup(c, 4) && HexGroup(d, 4) && HexGroup(e, 12)
  }

  /** The position of a character tells its group. */
  lemma {:induction false} InOneGroup(s: string, a: string, b: string, c: string, d: string, e: string, i: nat)
    requires Groups(s, a, b, c, d, e) && i < 36
    ensures |s| == 36 && (i in DASHES ==> s[i] == '-')
    ensures i !in DASHES ==> IsHex(s[i]) && (s[i] in a || s[i] in b || s[i] in c || s[i] in d || s[i] in e)
  {
    if i < 8 {
      assert s[i] == a[i] && a[i] in a;
    } else if 8 < i < 13 {
      assert s[i] == b[i - 9] && b[i - 9] in b;
    } else if 13 < i < 18 {
      assert s[i] == c[i - 14] && c[i - 14] in c;
    } else if 18 < i < 23 {
      assert s[i] == d[i - 19] && d[i - 19] in d;
    } else if 23 < i {
      assert s[i] == e[i - 24] && e[i - 24] in e;
    }
  }

  lemma {:induction false} OnlyIff(s: string, a: string, b: string, c: string, d: string, e: string, allowed: set<char>)
    requires Groups(s, a, b, c, d, e) && |s| == 36
    ensures Only(a + b + c + d + e, allowed) <==> forall i :: 0 <= i < |s| && i !in DASHES ==> s[i] in allowed
  {
    forall i: nat | i < |s| && i !in DASHES ensures s[i] in a + b + c + d + e {
      InOneGroup(s, a, b, c, d, e, i);
    }
    forall x | x in a + b + c + d + e ensures exists i :: 0 <= i < |s| && i !in DASHES && s[i] == x {
      InGroups(s, a, b, c, d, e, x);
    }
  }

  /** The version is the first digit of the third group, the variant that of the fourth. */
  lemma {:induction false} UuidGroups(s: string, a: string, b: string, c: string, d: string, e: string)
    requires Groups(s, a, b, c, d, e)
    ensures IsUuid(s) <==>
            || (c[0] in "12345678" && d[0] in "89abAB")
            || Only(a + b + c + d + e, {'0'}) || Only(a + b + c + d + e, {'f', 'F'})
  {
    assert |s| == 36 && s[14] == c[0] && s[19] == d[0];
    forall i: nat | i < 36
      ensures if i in DASHES then s[i] == '-' else IsHex(s[i])
    {
      InOneGroup(s, a, b, c, d, e, i);
    }
    OnlyIff(s, a, b, c, d, e, {'0'});
    OnlyIff(s, a, b, c, d, e, {'f', 'F'});
    hide Groups, IsHex, Only;
  }

  lemma {:induction false} InGroups(s: string, a: string, b: string, c: string, d: string, e: string, x: char)
    requires Groups(s, a, b, c, d, e) && x in a + b + c + d + e
    ensures exists i :: 0 <= i < |s| && i !in DASHES && s[i] == x
  {
    if x in a {
      var i :| 0 <= i < 8 && a[i] == x;
      assert s[i] == x;
    } else if x in b {
      var i :| 0 <= i < 4 && b[i] == x;
      assert s[9 + i] == x;
    } else if x in c {
      var i :| 0 <= i < 4 && c[i] == x;
      assert s[14 + i] == x;
    } else if x in d {
      var i :| 0 <= i < 4 && d[i] == x;
      assert s[19 + i] == x;
    } else {
      var i :| 0 <= i < 12 && e[i] == x;
      assert s[24 + i] == x;
    }
  }

  /** Every UUID has these groups. */
  lemma {:induction false} UuidHasGroups(s: string)
    requires IsUuid(s)
    ensures Groups(s, s[..8], s[9..13], s[14..18], s[19..23], s[24..])
  {
    assert s == s[..8] + [s[8]] + s[9..13] + [s[13]] + s[14..18] + [s[18]] + s[19..23] + [s[23]] + s[24..];
    assert s[8] == s[13] == s[18] == s[23] == '-';
  }

  /** `indexOf`: the first occurrence, or None. */
  function IndexOf(s: string, c: char): (r: Option<nat>)
    ensures r.Some? ==> r.value < |s| && s[r.value] == c && forall i :: 0 <= i < r.value ==> s[i] != c
    ensures r.None? ==> forall i :: 0 <= i < |s| ==> s[i] != c
  {
    if s == "" then None
    else if s[0] == c then Some(0)
    else
      var rest := IndexOf(s[1..], c);
      assert forall i :: 1 <= i < |s| ==> s[i] == s[1..][i - 1];
      if rest.Some? then Some(rest.value + 1) else None
  }

  datatype CursorPayload = CursorPayload(id: string, sortValue: string)

  function EncodeCursor(id: string, sortValue: string): string {
    id + "|" + sortValue
  }

  /** `None` stands for a BadRequestException. */
  function DecodeCursor(cursor: string): Option<CursorPayload> {
    var at := IndexOf(cursor, '|');
    if at.None? then None
    else
      var id, sortValue := cursor[..at.value], cursor[at.value + 1..];
      if id == "" || sortValue == "" || !IsUuid(id) then None else Some(CursorPayload(id, sortValue))
  }

  /** Decoding undoes encoding, even for sort values that contain the separator, and accepts exactly
      the encodings of a UUID with a non-empty sort value. */
  lemma DecodeCursorIff(cursor: string, p: CursorPayload)
    ensures DecodeCursor(cursor) == Some(p) <==>
            IsUuid(p.id) && p.sortValue != "" && cursor == p.id + "|" + p.sortValue
    ensures EncodeCursor(p.id, p.sortValue) == p.id + "|" + p.sortValue
  {
    if IsUuid(p.id) && cursor == EncodeCursor(p.id, p.sortValue) {
      assert cursor[..UUID_LENGTH] == p.id && cursor[UUID_LENGTH] == '|';
      var at := IndexOf(cursor, '|');
      assert forall i :: 0 <= i < UUID_LENGTH ==> cursor[i] == p.id[i];
      assert at == Some(UUID_LENGTH);
      assert cursor[UUID_LENGTH + 1..] == p.sortValue;
    }
    if DecodeCursor(cursor) == Some(p) {
      var at := IndexOf(cursor, '|').value;
      assert cursor == cursor[..at] + [cursor[at]] + cursor[at + 1..];
    }
  }

  datatype OpaqueToken = OpaqueToken(tokenId: string, rawSecret: string)

  function EncodeToken(id: string, rawSecret: string): string {
    id + ":" + rawSecret
  }

  function ParseOpaqueToken(token: string): Option<OpaqueToken> {
    if |token| <= UUID_LENGTH then None
    else if token[UUID_LENGTH] != ':' then None
    else
      var tokenId := token[..UUID_LENGTH];
      if !IsUuid(tokenId) then None
      else
        var rawSecret := token[UUID_LENGTH + 1..];
        if |rawSecret| < MIN_RAW_SECRET_LENGTH then None else Some(OpaqueToken(tokenId, rawSecret))
  }

  lemma ParseTokenIff(token: string, t: OpaqueToken)
    ensures ParseOpaqueToken(token) == Some(t) <==>
            IsUuid(t.tokenId) && |t.rawSecret| >= 64 && token == t.tokenId + ":" + t.rawSecret
    ensures EncodeToken(t.tokenId, t.rawSecret) == t.tokenId + ":" + t.rawSecret
  {
    if IsUuid(t.tokenId) && token == EncodeToken(t.tokenId, t.rawSecret) {
      assert token[..UUID_LENGTH] == t.tokenId && token[UUID_LENGTH + 1..] == t.rawSecret;
    }
    if ParseOpaqueToken(token) == Some(t) {
      assert token == token[..UUID_LENGTH] + [token[UUID_LENGTH]] + token[UUID_LENGTH + 1..];
    }
  }
}
