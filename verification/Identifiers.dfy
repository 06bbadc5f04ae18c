/** Room codes and participant IDs. Each char of a string stands for one byte of the Go string. */
module Identifiers {
  import opened ChatTypes

  const DIGITS := "0123456789"
  const UPPER := "ABCDEFGHIJKLMNOPQRSTUVWXYZ"
  const LOWER := "abcdefghijklmnopqrstuvwxyz"
  const BASE62 := DIGITS + UPPER + LOWER
  const ROOM_CODE_LENGTH := 6
  const GUEST_ID_PREFIX := "guest_"
  const GUEST_ID_RAW_LENGTH := 6

  predicate HasPrefix(s: string, prefix: string) {
    prefix <= s
  }

  predicate AllIn(s: string, alphabet: string) {
    forall i | 0 <= i < |s| :: s[i] in alphabet
  }

  predicate AllBase62(s: string) {
    AllIn(s, BASE62)
  }

  /** What a room code is: six characters of the alphabet. */
  predicate IsRoomCode(code: string) {
    |code| == ROOM_CODE_LENGTH && AllBase62(code)
  }

  ghost predicate IsGuestId(id: string) {
    exists raw :: |raw| == GUEST_ID_RAW_LENGTH && AllBase62(raw) && id == GUEST_ID_PREFIX + raw
  }

  method Scan(s: string, alphabet: string) returns (ok: bool)
    ensures ok <==> AllIn(s, alphabet)
  {
    for i := 0 to |s|
      invariant forall j | 0 <= j < i :: s[j] in alphabet
    {
      if s[i] !in alphabet {
        return false;
      }
    }
    return true;
  }

  method IsValidRoomCode(code: string) returns (ok: bool)
    ensures ok <==> IsRoomCode(code)
  {
    if |code| != ROOM_CODE_LENGTH {
      return false;
    }
    ok := Scan(code, BASE62);
  }

  method IsValidGuestID(id: string) returns (ok: bool)
    ensures ok <==> IsGuestId(id)
  {
    if !HasPrefix(id, GUEST_ID_PREFIX) {
      return false;
    }
    var raw := id[|GUEST_ID_PREFIX|..];
    assert id == GUEST_ID_PREFIX + raw;
    if |raw| != GUEST_ID_RAW_LENGTH {
      return false;
    }
    ok := Scan(raw, BASE62);
  }

  /** A random draw: one number below 62 for each character. */
  predicate IsDraw(draw: seq<nat>) {
    |draw| == ROOM_CODE_LENGTH && forall i | 0 <= i < |draw| :: draw[i] < |BASE62|
  }

  function CodeOf(draw: seq<nat>): (code: string)
    requires IsDraw(draw)
    ensures IsRoomCode(code)
  {
    seq(|draw|, i requires 0 <= i < |draw| => BASE62[draw[i]])
  }

  /** `draw` is what the random source yields. */
  method RoomCode(draw: seq<nat>) returns (code: string)
    requires IsDraw(draw)
    ensures IsRoomCode(code) && code == CodeOf(draw)
  {
    var result := new char[ROOM_CODE_LENGTH];
    for i := 0 to ROOM_CODE_LENGTH
      invariant forall j | 0 <= j < i :: result[j] == BASE62[draw[j]]
    {
      result[i] := BASE62[draw[i]];
    }
    code := result[..];
  }

  lemma DigitAt(i: nat)
    requires i < 10
    ensures DIGITS[i] == '0' + (i as char)
  {
  }

  lemma UpperAt(i: nat)
    requires i < 26
    ensures UPPER[i] == 'A' + (i as char)
  {
  }

  lemma LowerAt(i: nat)
    requires i < 26
    ensures LOWER[i] == 'a' + (i as char)
  {
  }

  lemma JoinedAt(a: string, b: string, c: string, i: nat)
    requires i < |a + b + c|
    ensures (a + b + c)[i] == if i < |a| then a[i] else if i < |a| + |b| then b[i - |a|] else c[i - |a| - |b|]
  {
  }

  lemma AlphabetAt(i: nat)
    requires i < |BASE62|
    ensures BASE62[i] == if i < 10 then '0' + (i as char) else if i < 36 then 'A' + ((i - 10) as char)
            else 'a' + ((i - 36) as char)
  {
    JoinedAt(DIGITS, UPPER, LOWER, i);
    if i < 10 {
      DigitAt(i);
    } else if i < 36 {
      UpperAt(i - 10);
    } else {
      LowerAt(i - 36);
    }
  }

  /** The characters of the alphabet are distinct, in increasing order. */
  lemma AlphabetIsDistinct(i: nat, j: nat)
    requires i < j < |BASE62|
    ensures BASE62[i] < BASE62[j]
  {
    AlphabetAt(i);
    AlphabetAt(j);
  }

  /** Every room code comes from exactly one draw: with uniform draws all codes are equally likely. */
  lemma CodesMatchDraws(code: string) returns (draw: seq<nat>)
    requires IsRoomCode(code)
    ensures IsDraw(draw) && CodeOf(draw) == code
    ensures forall other | IsDraw(other) && CodeOf(other) == code :: other == draw
  {
    draw := seq(ROOM_CODE_LENGTH, i requires 0 <= i < ROOM_CODE_LENGTH =>
        (var k: nat :| k < |BASE62| && BASE62[k] == code[i]; k));
    forall other | IsDraw(other) && CodeOf(other) == code ensures other == draw {
      forall i | 0 <= i < ROOM_CODE_LENGTH ensures other[i] == draw[i] {
        assert BASE62[other[i]] == code[i] == BASE62[draw[i]];
        if other[i] < draw[i] {
          AlphabetIsDistinct(other[i], draw[i]);
        } else if draw[i] < other[i] {
          AlphabetIsDistinct(draw[i], other[i]);
        }
      }
    }
  }

  /** The IDs that reach a room: a guest's, or a registered user's, whose token ID had to parse as a UUID,
      which only texts of 32 or 36 characters do. */
  ghost predicate MayBeIssued(id: string) {
    IsGuestId(id) || |id| == 32 || |id| == 36
  }

  /** No participant can pass for the system user, whose events every member must receive. */
  lemma NobodyIsSystem(id: string)
    requires MayBeIssued(id)
    ensures id != SYSTEM_ID
  {
    if IsGuestId(id) {
      var raw :| |raw| == GUEST_ID_RAW_LENGTH && AllBase62(raw) && id == GUEST_ID_PREFIX + raw;
      assert id[0] == 'g';
    }
  }

  lemma NoSlash(code: string, i: nat)
    requires AllBase62(code) && i < |code|
    ensures code[i] != '/'
  {
    assert code[i] in BASE62;
    var k :| 0 <= k < |BASE62| && BASE62[k] == code[i];
    AlphabetAt(k);
  }

  /** Room codes are told apart by the key prefixes made from them, and would be at any length. */
  lemma PrefixNamesRoom(code: string, other: string, rest: string)
    requires AllBase62(code) && AllBase62(other)
    ensures HasPrefix(code + "/" + rest, other + "/") <==> other == code
  {
    var key := code + "/" + rest;
    if HasPrefix(key, other + "/") {
      SlashAfter(code, rest);
      assert forall i | 0 <= i <= |other| :: (other + "/")[i] == key[i];
      assert key[|other|] == '/';
      if |other| < |code| {
        NoSlash(code, |other|);
      } else if |code| < |other| {
        assert other[|code|] == key[|code|];
        NoSlash(other, |code|);
      } else {
        assert other == key[..|other|] == code;
      }
    } else {
      assert HasPrefix(key, code + "/");
    }
  }

  lemma SlashAfter(code: string, rest: string)
    ensures var key := code + "/" + rest;
            key[|code|] == '/' && key[..|code|] == code && forall i | 0 <= i < |code| :: key[i] == code[i]
  {
  }
}
