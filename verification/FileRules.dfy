/** Which files may be attached to a message, and the keys under which they are stored. */
module FileRules {
  import opened ChatTypes
  import opened Identifiers

  const MAX_CONTENT_BYTES := 5000
  const MAX_ATTACHMENTS := 3
  const MAX_ATTACHMENT_SIZE := 5 * 1024 * 1024

  const ERR_INVALID_PARAMS := 1001
  const ERR_CONTENT_TOO_LONG := 2201
  const ERR_FILE_TOO_LARGE := 2202
  const ERR_ATTACHMENT_COUNT := 2203
  const ERR_ATTACHMENT_KEY := 2204

  const EXT_TO_MIME: map<string, string> := map[
    ".jpg" := "image/jpeg",
    ".jpeg" := "image/jpeg",
    ".png" := "image/png",
    ".webp" := "image/webp",
    ".gif" := "image/gif"]

  const ALLOWED_MIME_TYPES: set<string> := {"image/jpeg", "image/png", "image/webp", "image/gif"}

  // ----- the string functions of the Go library that the checks use -----

  function LowerByte(b: char): char {
    if 'A' <= b <= 'Z' then (b as int + 32) as char else b
  }

  /** How many bytes are lowered together: those of U+0130 (C4 B0), of U+212A (E2 84 AA), or one. */
  function Width(s: string): (n: nat)
    requires s != ""
    ensures 1 <= n <= |s|
  {
    if |s| >= 2 && s[0] == '\U{C4}' && s[1] == '\U{B0}' then 2
    else if |s| >= 3 && s[0] == '\U{E2}' && s[1] == '\U{84}' && s[2] == '\U{AA}' then 3
    else 1
  }

  function LowerFirst(s: string): char
    requires s != ""
  {
    if Width(s) == 2 then 'i' else if Width(s) == 3 then 'k' else LowerByte(s[0])
  }

  /** `strings.ToLower`, up to non-ASCII results: beside A to Z only U+0130 and U+212A have an ASCII lower case,
      and no table entry holds anything else. */
  function Lower(s: string): string
    decreases |s|
  {
    if s == "" then "" else [LowerFirst(s)] + Lower(s[Width(s)..])
  }

  /** `filepath.Ext`, looking for the last dot before position `i` and after the last slash. */
  function ExtBefore(path: string, i: nat): string
    requires i <= |path|
  {
    if i == 0 || path[i - 1] == '/' then ""
    else if path[i - 1] == '.' then path[i - 1..]
    else ExtBefore(path, i - 1)
  }

  function Ext(path: string): string {
    ExtBefore(path, |path|)
  }

  // ----- the checks -----

  function ValidateFileSize(size: int): Option<int> {
    if size <= 0 then Some(ERR_INVALID_PARAMS)
    else if size > MAX_ATTACHMENT_SIZE then Some(ERR_FILE_TOO_LARGE)
    else None
  }

  function ValidateFileType(name: string, mimeType: string): Option<int> {
    var mime := Lower(mimeType);
    var ext := Lower(Ext(name));
    if mime !in ALLOWED_MIME_TYPES then Some(ERR_INVALID_PARAMS)
    else if ext == "" || |ext| < 2 then Some(ERR_INVALID_PARAMS)
    else if ext !in EXT_TO_MIME then Some(ERR_INVALID_PARAMS)
    else if EXT_TO_MIME[ext] != mime then Some(ERR_INVALID_PARAMS)
    else None
  }

  predicate EndsWith(s: string, t: string) {
    |t| <= |s| && s[|s| - |t|..] == t
  }

  /** What the type check is for: in any letter case, the name ends with an image extension and the MIME type is
      the one that goes with it. */
  ghost predicate TypeMatches(name: string, mimeType: string) {
    exists ext :: ext in EXT_TO_MIME && EndsWith(Lower(name), ext) && Lower(mimeType) == EXT_TO_MIME[ext]
  }

  lemma FirstJoins(a: string, b: string)
    requires a != "" && (b != "" ==> b[0] < '\U{80}')
    ensures Width(a + b) == Width(a) && LowerFirst(a + b) == LowerFirst(a)
    ensures (a + b)[Width(a)..] == a[Width(a)..] + b
  {
    assert (a + b)[0] == a[0];
    assert |a| == 1 && b != "" ==> (a + b)[1] == b[0];
    assert |a| >= 2 ==> (a + b)[1] == a[1];
    assert |a| == 2 && b != "" ==> (a + b)[2] == b[0];
    assert |a| >= 3 ==> (a + b)[2] == a[2];
  }

  lemma {:induction false} LowerJoins(a: string, b: string)
    requires b != "" ==> b[0] < '\U{80}'
    ensures Lower(a + b) == Lower(a) + Lower(b)
    decreases |a|
  {
    if a == "" {
      assert a + b == b;
    } else {
      var rest := a[Width(a)..];
      FirstJoins(a, b);
      LowerJoins(rest, b);
      assert [LowerFirst(a)] + (Lower(rest) + Lower(b)) == ([LowerFirst(a)] + Lower(rest)) + Lower(b);
    }
  }

  /** The extension as a position: everything from the last dot on, if no slash follows that dot. */
  lemma {:induction false} ExtBeforeFound(path: string, i: nat, k: nat)
    requires k < i <= |path| && path[k] == '.'
    requires forall j | k < j < i :: path[j] != '.' && path[j] != '/'
    ensures ExtBefore(path, i) == path[k..]
  {
    if k < i - 1 {
      ExtBeforeFound(path, i - 1, k);
    }
  }

  lemma {:induction false} ExtBeforeMeans(path: string, i: nat)
    requires i <= |path| && ExtBefore(path, i) != ""
    ensures ExtBefore(path, i)[0] == '.' && EndsWith(path, ExtBefore(path, i))
  {
    if path[i - 1] != '.' {
      ExtBeforeMeans(path, i - 1);
    }
  }

  /** Lowering never makes or removes a dot or a slash, so a lowered ending comes from an ending. */
  lemma {:induction false} LowerSplits(s: string, t: string) returns (k: nat)
    requires t != "" && t[0] == '.' && EndsWith(Lower(s), t)
    ensures k < |s| && s[k] == '.' && Lower(s[k..]) == t
    decreases |s|
  {
    var n, rest := Width(s), Lower(s[Width(s)..]);
    assert Lower(s) == [LowerFirst(s)] + rest;
    if |t| == |rest| + 1 {
      assert Lower(s) == t;
      FirstPlain(s);
      k := 0;
      assert s[0..] == s;
    } else {
      EndsLater(LowerFirst(s), rest, t);
      k := LowerSplits(s[n..], t);
      assert s[n..][k..] == s[n + k..];
      k := n + k;
    }
  }

  lemma EndsLater(first: char, rest: string, t: string)
    requires EndsWith([first] + rest, t) && |t| <= |rest|
    ensures EndsWith(rest, t)
  {
    assert ([first] + rest)[1 + |rest| - |t|..] == rest[|rest| - |t|..];
  }

  lemma FirstPlain(s: string)
    requires s != ""
    ensures LowerFirst(s) == '.' <==> s[0] == '.'
    ensures LowerFirst(s) == '/' <==> s[0] == '/'
    ensures Width(s) > 1 ==> forall i | 0 <= i < Width(s) :: s[i] != '.' && s[i] != '/'
  {
  }

  lemma {:induction false} LowerKeeps(s: string, b: char)
    requires b == '.' || b == '/'
    ensures b in Lower(s) <==> b in s
    decreases |s|
  {
    if s != "" {
      var n := Width(s);
      LowerKeeps(s[n..], b);
      FirstPlain(s);
      assert s == s[..n] + s[n..];
      assert b in s[..n] <==> s[0] == b;
    }
  }

  lemma TableEntry(ext: string)
    requires ext in EXT_TO_MIME
    ensures |ext| >= 2 && ext[0] == '.' && '.' !in ext[1..] && '/' !in ext[1..]
    ensures EXT_TO_MIME[ext] in ALLOWED_MIME_TYPES
  {
  }

  lemma PassedTypeMatches(name: string, mimeType: string)
    requires ValidateFileType(name, mimeType).None?
    ensures TypeMatches(name, mimeType)
  {
    var ext := Ext(name);
    ExtBeforeMeans(name, |name|);
    var stem := name[..|name| - |ext|];
    assert name == stem + ext;
    LowerJoins(stem, ext);
    assert EndsWith(Lower(name), Lower(ext));
  }

  lemma PlainEnding(rest: string, end: string)
    requires Lower(rest) == end && '.' !in end && '/' !in end
    ensures forall j | 0 <= j < |rest| :: rest[j] != '.' && rest[j] != '/'
  {
    LowerKeeps(rest, '.');
    LowerKeeps(rest, '/');
  }

  lemma ExtFound(name: string, k: nat, ext: string)
    requires k < |name| && name[k] == '.' && Lower(name[k..]) == ext && ext != "" && '.' !in ext[1..]
    requires '/' !in ext[1..]
    ensures Ext(name) == name[k..]
  {
    var rest := name[k + 1..];
    assert name[k..][1..] == rest && name[k..][0] == '.';
    PlainEnding(rest, ext[1..]);
    forall j | k < j < |name| ensures name[j] != '.' && name[j] != '/' {
      assert name[j] == rest[j - k - 1];
    }
    ExtBeforeFound(name, |name|, k);
  }

  lemma MatchingTypePasses(name: string, mimeType: string, ext: string)
    requires ext in EXT_TO_MIME && EndsWith(Lower(name), ext) && Lower(mimeType) == EXT_TO_MIME[ext]
    ensures ValidateFileType(name, mimeType).None?
  {
    TableEntry(ext);
    var k := LowerSplits(name, ext);
    ExtFound(name, k, ext);
  }

  /** The type check accepts exactly the files whose name and MIME type go together. */
  lemma TypeCheckIsExact(name: string, mimeType: string)
    ensures ValidateFileType(name, mimeType).None? <==> TypeMatches(name, mimeType)
  {
    if ValidateFileType(name, mimeType).None? {
      PassedTypeMatches(name, mimeType);
    }
    if TypeMatches(name, mimeType) {
      var ext :| ext in EXT_TO_MIME && EndsWith(Lower(name), ext) && Lower(mimeType) == EXT_TO_MIME[ext];
      MatchingTypePasses(name, mimeType, ext);
    }
  }

  // ----- messages -----

  datatype Verdict = Refused(code: int) | Accepted(payload: Payload)

  function Problem(code: string, item: Attachment): Option<int> {
    if !HasPrefix(item.key, code + "/") then Some(ERR_ATTACHMENT_KEY) else ValidateFileType(item.name, item.mimeType)
  }

  /** The first problem the loop over the attachments meets. */
  function FirstProblem(code: string, items: seq<Attachment>): Option<int> {
    if items == [] then None
    else if Problem(code, items[0]).Some? then Problem(code, items[0])
    else FirstProblem(code, items[1..])
  }

  function Cleared(items: seq<Attachment>): seq<Attachment> {
    seq(|items|, i requires 0 <= i < |items| => items[i].(meta := None))
  }

  function JudgeText(content: string): Verdict {
    if |content| > MAX_CONTENT_BYTES then Refused(ERR_CONTENT_TOO_LONG) else Accepted(Text(content))
  }

  function JudgeAttachments(code: string, description: string, items: seq<Attachment>): Verdict {
    if |items| == 0 || |items| > MAX_ATTACHMENTS then Refused(ERR_ATTACHMENT_COUNT)
    else if |description| > MAX_CONTENT_BYTES then Refused(ERR_CONTENT_TOO_LONG)
    else if FirstProblem(code, items).Some? then Refused(FirstProblem(code, items).value)
    else Accepted(Payload.Attachments(description, Cleared(items)))
  }

  ghost predicate Belongs(code: string, item: Attachment) {
    HasPrefix(item.key, code + "/") && TypeMatches(item.name, item.mimeType)
  }

  /** What may be broadcast in the room `code`. */
  ghost predicate Confined(code: string, payload: Payload) {
    match payload
    case Text(content) => |content| <= MAX_CONTENT_BYTES
    case Attachments(description, items) =>
      && 1 <= |items| <= MAX_ATTACHMENTS && |description| <= MAX_CONTENT_BYTES
      && forall i | 0 <= i < |items| :: Belongs(code, items[i]) && items[i].meta.None?
    case _ => false
  }

  lemma ProblemMeans(code: string, item: Attachment)
    ensures Problem(code, item).None? <==> Belongs(code, item)
  {
    TypeCheckIsExact(item.name, item.mimeType);
  }

  lemma {:induction false} NoFirstProblem(code: string, items: seq<Attachment>)
    ensures FirstProblem(code, items).None? <==> forall item | item in items :: Problem(code, item).None?
  {
    if items != [] {
      var first, rest := items[0], items[1..];
      NoFirstProblem(code, rest);
      assert forall item :: item in items <==> item == first || item in rest;
    }
  }

  /** The loop finds nothing exactly when every file belongs to the room. */
  lemma NoProblemMeans(code: string, items: seq<Attachment>)
    ensures FirstProblem(code, items).None? <==> forall i | 0 <= i < |items| :: Belongs(code, items[i])
  {
    NoFirstProblem(code, items);
    forall i | 0 <= i < |items|
        ensures items[i] in items && (Problem(code, items[i]).None? <==> Belongs(code, items[i])) {
      ProblemMeans(code, items[i]);
    }
  }

  lemma ClearedBelongs(code: string, item: Attachment)
    ensures Belongs(code, item.(meta := None)) <==> Belongs(code, item)
  {
  }

  lemma ClearedBelong(code: string, items: seq<Attachment>)
    ensures (forall i | 0 <= i < |items| :: Belongs(code, items[i]))
            <==> forall i | 0 <= i < |items| :: Belongs(code, Cleared(items)[i]) && Cleared(items)[i].meta.None?
  {
    forall i | 0 <= i < |items| ensures Belongs(code, items[i]) <==> Belongs(code, Cleared(items)[i]) {
      ClearedBelongs(code, items[i]);
    }
  }

  /** A message is accepted exactly when, its metadata cleared, it may be broadcast; and then only the metadata
      changes. */
  lemma JudgedIsConfined(code: string, description: string, items: seq<Attachment>)
    ensures var verdict := JudgeAttachments(code, description, items);
            && (verdict.Accepted? <==> Confined(code, Payload.Attachments(description, Cleared(items))))
            && (verdict.Accepted? ==> verdict.payload == Payload.Attachments(description, Cleared(items)))
  {
    NoProblemMeans(code, items);
    ClearedBelong(code, items);
  }

  /** What the handlers of inbound messages can have accepted in the room `code`. */
  ghost predicate Judged(code: string, payload: Payload) {
    || (exists content :: JudgeText(content) == Accepted(payload))
    || (exists description, items :: JudgeAttachments(code, description, items) == Accepted(payload))
  }

  /** What passes the checks is what may be broadcast in the room, no less and no more. */
  lemma JudgedMeansConfined(code: string, payload: Payload)
    ensures Judged(code, payload) <==> Confined(code, payload)
  {
    if content :| JudgeText(content) == Accepted(payload) {
    } else if description, items :| JudgeAttachments(code, description, items) == Accepted(payload) {
      JudgedIsConfined(code, description, items);
    }
    if Confined(code, payload) {
      match payload
      case Text(content) => assert JudgeText(content) == Accepted(payload);
      case Attachments(description, items) =>
        assert Cleared(items) == items;
        JudgedIsConfined(code, description, items);
        assert JudgeAttachments(code, description, items) == Accepted(payload);
    }
  }

  /** Which refusal is sent: that of the first file, in order, that has a problem. */
  lemma {:induction false} FirstProblemIsFirst(code: string, items: seq<Attachment>)
    ensures FirstProblem(code, items).Some? ==>
              exists i | 0 <= i < |items| ::
                && FirstProblem(code, items) == Problem(code, items[i])
                && forall j | 0 <= j < i :: Problem(code, items[j]).None?
  {
    if items != [] && Problem(code, items[0]).None? {
      var rest := items[1..];
      FirstProblemIsFirst(code, rest);
      if FirstProblem(code, rest).Some? {
        var i :| 0 <= i < |rest| && FirstProblem(code, rest) == Problem(code, rest[i])
                 && forall j | 0 <= j < i :: Problem(code, rest[j]).None?;
        assert items[i + 1] == rest[i];
        assert forall j | 0 < j <= i :: items[j] == rest[j - 1];
      }
    }
  }

  /** A file under another prefix is refused for its key, whatever its type; and else only for its type. */
  lemma ProblemCodes(code: string, item: Attachment)
    ensures Problem(code, item) ==
            if !(code + "/" <= item.key) then Some(ERR_ATTACHMENT_KEY)
            else if !TypeMatches(item.name, item.mimeType) then Some(ERR_INVALID_PARAMS)
            else None
  {
    TypeCheckIsExact(item.name, item.mimeType);
  }

  /** Every refusal of a message, in the order in which the reasons are tried. */
  lemma RefusalsExactly(code: string, description: string, items: seq<Attachment>, error: int)
    ensures JudgeAttachments(code, description, items) == Refused(error) <==>
            if |items| == 0 || |items| > MAX_ATTACHMENTS then error == ERR_ATTACHMENT_COUNT
            else if |description| > MAX_CONTENT_BYTES then error == ERR_CONTENT_TOO_LONG
            else exists i | 0 <= i < |items| ::
                   && (forall j | 0 <= j < i :: Belongs(code, items[j]))
                   && !Belongs(code, items[i])
                   && error == if code + "/" <= items[i].key then ERR_INVALID_PARAMS else ERR_ATTACHMENT_KEY
  {
    forall i | 0 <= i < |items|
      ensures (Problem(code, items[i]).None? <==> Belongs(code, items[i]))
      ensures !Belongs(code, items[i]) ==>
                Problem(code, items[i])
                    == Some(if code + "/" <= items[i].key then ERR_INVALID_PARAMS else ERR_ATTACHMENT_KEY)
    {
      ProblemCodes(code, items[i]);
    }
    NoProblemMeans(code, items);
    FirstProblemIsFirst(code, items);
  }

  lemma TextRefusedExactly(content: string, error: int)
    ensures JudgeText(content) == Refused(error) <==> |content| > MAX_CONTENT_BYTES && error == ERR_CONTENT_TOO_LONG
    ensures JudgeText(content).Accepted? ==> JudgeText(content).payload == Text(content)
  {
  }

  predicate IsAscii(s: string) {
    forall i | 0 <= i < |s| :: s[i] < '\U{80}'
  }

  lemma {:induction false} LowerLength(s: string)
    requires IsAscii(s)
    ensures |Lower(s)| == |s|
  {
    if s != "" {
      LowerLength(s[1..]);
    }
  }

  /** Lower case, for a text of ASCII bytes: each of A to Z becomes its small letter, and all else stays. */
  lemma {:induction false} LowerIsPlain(s: string, i: nat)
    requires IsAscii(s) && i < |s|
    ensures |Lower(s)| == |s|
    ensures Lower(s)[i] == if 'A' <= s[i] <= 'Z' then (s[i] as int + 32) as char else s[i]
    decreases i
  {
    LowerLength(s);
    assert Width(s) == 1 && Lower(s) == [LowerFirst(s)] + Lower(s[1..]);
    if i > 0 {
      LowerIsPlain(s[1..], i - 1);
    }
  }

  // ----- presigned uploads -----

  datatype Presigned = PresignRefused(code: int) | PresignedKey(key: string)

  /** The key under which the room's members may upload a file; `fileId` is a random UUID. */
  function Presign(code: string, name: string, mimeType: string, size: int, fileId: string): Presigned {
    if ValidateFileSize(size).Some? then PresignRefused(ValidateFileSize(size).value)
    else if ValidateFileType(name, mimeType).Some? then PresignRefused(ValidateFileType(name, mimeType).value)
    else PresignedKey(code + "/" + fileId + Lower(Ext(name)))
  }

  /** Which uploads are presigned: those of a size above zero and up to five megabytes, of a matching type. */
  lemma PresignedExactly(code: string, name: string, mimeType: string, size: int, fileId: string)
    ensures Presign(code, name, mimeType, size, fileId).PresignedKey? <==>
            0 < size <= 5 * 1024 * 1024 && TypeMatches(name, mimeType)
    ensures Presign(code, name, mimeType, size, fileId).PresignRefused? ==>
              Presign(code, name, mimeType, size, fileId).code ==
              if size > 5 * 1024 * 1024 then ERR_FILE_TOO_LARGE else ERR_INVALID_PARAMS
  {
    TypeCheckIsExact(name, mimeType);
  }

  /** Different uploads get different keys: the file IDs are UUIDs, all of one length. */
  lemma PresignedApart(code: string, code': string, item: Attachment, item': Attachment, fileId: string,
      fileId': string)
    requires IsRoomCode(code) && IsRoomCode(code') && |fileId| == |fileId'|
    requires Presign(code, item.name, item.mimeType, item.size, fileId) == PresignedKey(item.key)
    requires Presign(code', item'.name, item'.mimeType, item'.size, fileId') == PresignedKey(item'.key)
    ensures item.key == item'.key ==> code == code' && fileId == fileId'
  {
    var head, head' := code + "/" + fileId, code' + "/" + fileId';
    assert item.key == head + Lower(Ext(item.name)) && item'.key == head' + Lower(Ext(item'.name));
    assert item.key[..|head|] == head && item'.key[..|head'|] == head';
    assert head[..6] == code && head[7..] == fileId && head'[..6] == code' && head'[7..] == fileId';
  }

  /** A presigned key carries the extension of its file, and so still matches the file's type. */
  lemma PresignedKeyMatches(code: string, name: string, mimeType: string, size: int, fileId: string)
    requires Presign(code, name, mimeType, size, fileId).PresignedKey?
    ensures EndsWith(Presign(code, name, mimeType, size, fileId).key, Lower(Ext(name)))
    ensures ValidateFileType(Presign(code, name, mimeType, size, fileId).key, mimeType).None?
  {
    var ext := Lower(Ext(name));
    var stem := code + "/" + fileId;
    assert Presign(code, name, mimeType, size, fileId).key == stem + ext;
    TableEntry(ext);
    TableLower(ext);
    LowerJoins(stem, ext);
    assert EndsWith(Lower(stem + ext), ext);
    MatchingTypePasses(stem + ext, mimeType, ext);
  }

  predicate IsPlain(s: string) {
    forall i | 0 <= i < |s| :: s[i] == '.' || 'a' <= s[i] <= 'z'
  }

  lemma PlainEntry(ext: string)
    requires ext in EXT_TO_MIME
    ensures IsPlain(ext) && ext != ""
  {
    assert IsPlain(".jpg") && IsPlain(".jpeg") && IsPlain(".png") && IsPlain(".webp") && IsPlain(".gif");
  }

  lemma PlainIsLower(s: string)
    requires IsPlain(s)
    ensures Lower(s) == s && IsAscii(s)
  {
    LowerLength(s);
    forall i | 0 <= i < |s| ensures Lower(s)[i] == s[i] {
      LowerIsPlain(s, i);
    }
  }

  lemma TableLower(ext: string)
    requires ext in EXT_TO_MIME
    ensures |ext| > 0 && ext[0] < '\U{80}' && Lower(ext) == ext
  {
    PlainEntry(ext);
    PlainIsLower(ext);
  }

  /** A key that was presigned is accepted with its file in its own room, and in no other. */
  lemma PresignedForOneRoom(code: string, other: string, item: Attachment, fileId: string, description: string)
    requires IsRoomCode(code) && IsRoomCode(other) && |description| <= MAX_CONTENT_BYTES
    requires Presign(code, item.name, item.mimeType, item.size, fileId) == PresignedKey(item.key)
    ensures JudgeAttachments(other, description, [item]).Accepted? <==> other == code
  {
    var rest := fileId + Lower(Ext(item.name));
    assert item.key == code + "/" + rest;
    PrefixNamesRoom(code, other, rest);
    assert [item][1..] == [] && FirstProblem(other, [item][1..]).None?;
  }
}
