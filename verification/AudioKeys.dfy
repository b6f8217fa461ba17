/** The layout of audio object keys: one printer, two parsers and the owner prefix. */
module AudioKeys {
  import opened Wrappers

  const PREFIX := "v0"
  const SUFFIX := ".m4a"

  // --- str.split("/") ---------------------------------------------------------------------

  function Split(s: string): (parts: seq<string>)
    ensures |parts| >= 1
  {
    if s == "" then [""] else
    var rest := Split(s[1..]);
    if s[0] == '/' then [""] + rest else [[s[0]] + rest[0]] + rest[1..]
  }

  function Join(parts: seq<string>): string
    requires parts != []
  {
    if |parts| == 1 then parts[0] else parts[0] + "/" + Join(parts[1..])
  }

  predicate Plain(s: string) {
    '/' !in s
  }

  lemma {:induction false} JoinSplit(s: string)
    ensures Join(Split(s)) == s && forall part | part in Split(s) :: Plain(part)
  {
    if s != "" {
      var rest := Split(s[1..]);
      JoinSplit(s[1..]);
      assert s == [s[0]] + s[1..];
      if s[0] == '/' {
        assert ([""] + rest)[1..] == rest;
      } else {
        var parts := [[s[0]] + rest[0]] + rest[1..];
        assert parts[1..] == rest[1..];
        assert rest[0] in rest;
      }
    }
  }

  lemma {:induction false} SplitPlain(s: string, rest: string)
    requires Plain(s)
    ensures Split(s) == [s] && Split(s + "/" + rest) == [s] + Split(rest)
  {
    if s == "" {
      assert s + "/" + rest == ['/'] + rest;
      assert (['/'] + rest)[1..] == rest;
    } else {
      SplitPlain(s[1..], rest);
      var all := s + "/" + rest;
      assert all[1..] == s[1..] + "/" + rest;
      assert [s[0]] + s[1..] == s;
      assert ([s[1..]] + Split(rest))[1..] == Split(rest);
    }
  }

  // --- printing and parsing ------------------------------------------------------------------

  function AudioObjectKey(userId: string, recordId: string): string {
    PREFIX + "/" + userId + "/" + (recordId + SUFFIX)
  }

  predicate EndsWith(s: string, end: string) {
    |end| <= |s| && s[|s| - |end|..] == end
  }

  function RecordIdFromAudioKey(key: string): Option<string> {
    var parts := Split(key);
    if |parts| != 3 || parts[0] != PREFIX then None else
    var stem := parts[2];
    if !EndsWith(stem, SUFFIX) then None else
    var recordId := stem[..|stem| - |SUFFIX|];
    if recordId == "" then None else Some(recordId)
  }

  function UserIdFromAudioKey(key: string): Option<string> {
    var parts := Split(key);
    if RecordIdFromAudioKey(key).None? || |parts| != 3 then None
    else if parts[1] == "" then None else Some(parts[1])
  }

  /** The ids `_audio_prefix` accepts; on any other it raises. */
  predicate ValidOwner(userId: string) {
    userId != "" && userId != "." && userId != ".." && '/' !in userId && '\\' !in userId
  }

  function AudioPrefix(userId: string): string {
    PREFIX + "/" + userId + "/"
  }

  // --- the layout, spelled out -----------------------------------------------------------------

  /** The ids an owner of audio may have. */
  predicate IsOwnerId(userId: string) {
    userId != "" && userId != "." && userId != ".." && forall c | c in userId :: c != '/' && c != '\\'
  }

  /** The name is that of an audio object of the user. */
  ghost predicate IsAudioOf(name: string, userId: string) {
    userId != "" && '/' !in userId && exists recordId :: IsAudio(name, userId, recordId)
  }

  predicate IsAudio(name: string, userId: string, recordId: string) {
    recordId != "" && '/' !in recordId && name == "v0/" + userId + "/" + recordId + ".m4a"
  }

  /** The name lies in the user's folder. */
  predicate IsUnder(name: string, userId: string) {
    "v0/" + userId + "/" <= name
  }

  /** Printer, prefix, parsers and the check on ids mean exactly that. */
  lemma Layout(userId: string, recordId: string, name: string)
    ensures AudioObjectKey(userId, recordId) == "v0/" + userId + "/" + recordId + ".m4a"
    ensures AudioPrefix(userId) == "v0/" + userId + "/"
    ensures ValidOwner(userId) <==> IsOwnerId(userId)
    ensures UserIdFromAudioKey(name) == Some(userId) <==> IsAudioOf(name, userId)
  {
    Printed(userId, recordId);
    if UserIdFromAudioKey(name) == Some(userId) {
      PrintParsed(name);
      var id := RecordIdFromAudioKey(name).value;
      Printed(userId, id);
      ParsesExactly(name, userId, id);
      assert IsAudio(name, userId, id);
    }
    if IsAudioOf(name, userId) {
      var id :| IsAudio(name, userId, id);
      Printed(userId, id);
      ParsesExactly(name, userId, id);
    }
  }

  lemma Printed(userId: string, recordId: string)
    ensures AudioObjectKey(userId, recordId) == "v0/" + userId + "/" + recordId + ".m4a"
    ensures AudioPrefix(userId) == "v0/" + userId + "/"
  {
    assert PREFIX + "/" + userId + "/" + (recordId + SUFFIX) == "v0" + "/" + userId + "/" + recordId + ".m4a";
    assert "v0" + "/" + userId + "/" == "v0/" + userId + "/";
    assert "v0" + "/" + userId + "/" + recordId + ".m4a" == "v0/" + userId + "/" + recordId + ".m4a";
  }

  // --- they are inverse to each other ----------------------------------------------------------

  lemma SplitKey(userId: string, stem: string)
    requires Plain(userId) && Plain(stem)
    ensures Split(PREFIX + "/" + userId + "/" + stem) == [PREFIX, userId, stem]
  {
    SplitPlain(stem, "");
    SplitPlain(userId, stem);
    SplitPlain(PREFIX, userId + "/" + stem);
    assert PREFIX + "/" + userId + "/" + stem == PREFIX + "/" + (userId + "/" + stem);
  }

  lemma JoinThree(parts: seq<string>)
    requires |parts| == 3
    ensures Join(parts) == parts[0] + "/" + parts[1] + "/" + parts[2]
  {
    assert parts[1..][1..] == [parts[2]];
    assert Join(parts[1..]) == parts[1] + "/" + parts[2];
    assert parts[0] + "/" + (parts[1] + "/" + parts[2]) == parts[0] + "/" + parts[1] + "/" + parts[2];
  }

  lemma SplitThree(key: string)
    requires |Split(key)| == 3
    ensures var parts := Split(key);
            && key == parts[0] + "/" + parts[1] + "/" + parts[2]
            && Plain(parts[0]) && Plain(parts[1]) && Plain(parts[2])
  {
    JoinSplit(key);
    JoinThree(Split(key));
  }

  lemma ParsedStem(stem: string, recordId: string)
    requires EndsWith(stem, SUFFIX) && stem[..|stem| - |SUFFIX|] == recordId
    ensures stem == recordId + SUFFIX
  {
  }

  /** Whenever both parsers succeed, printing their results gives the key back. */
  lemma PrintParsed(key: string)
    requires UserIdFromAudioKey(key).Some?
    ensures RecordIdFromAudioKey(key).Some?
    ensures AudioObjectKey(UserIdFromAudioKey(key).value, RecordIdFromAudioKey(key).value) == key
    ensures Plain(UserIdFromAudioKey(key).value) && Plain(RecordIdFromAudioKey(key).value)
  {
    var parts := Split(key);
    SplitThree(key);
    ParsedStem(parts[2], RecordIdFromAudioKey(key).value);
    forall c | c in RecordIdFromAudioKey(key).value ensures c in parts[2] {
    }
  }

  lemma ParsePlain(userId: string, recordId: string)
    requires Plain(userId) && Plain(recordId)
    ensures var key := AudioObjectKey(userId, recordId);
            && RecordIdFromAudioKey(key) == (if recordId == "" then None else Some(recordId))
            && UserIdFromAudioKey(key) == (if recordId == "" || userId == "" then None else Some(userId))
  {
    SplitKey(userId, recordId + SUFFIX);
    var stem := recordId + SUFFIX;
    assert stem[|stem| - |SUFFIX|..] == SUFFIX && stem[..|stem| - |SUFFIX|] == recordId;
  }

  /** Printer and parsers are inverse to each other: the parsers return a pair of ids exactly for the key printed from
      it, and only for ids that are not empty and have no slash in them. */
  lemma ParsesExactly(key: string, userId: string, recordId: string)
    ensures UserIdFromAudioKey(key) == Some(userId) && RecordIdFromAudioKey(key) == Some(recordId)
            <==> key == AudioObjectKey(userId, recordId) &&
                 userId != "" && recordId != "" && Plain(userId) && Plain(recordId)
  {
    if UserIdFromAudioKey(key) == Some(userId) && RecordIdFromAudioKey(key) == Some(recordId) {
      PrintParsed(key);
    } else if key == AudioObjectKey(userId, recordId) && Plain(userId) && Plain(recordId) {
      ParsePlain(userId, recordId);
    }
  }

  /** The two parsers disagree on one family only: a key with an empty owner has a record id all the same. */
  lemma OwnerlessKeys(key: string)
    ensures RecordIdFromAudioKey(key).Some? && UserIdFromAudioKey(key).None?
            <==> exists recordId :: recordId != "" && Plain(recordId) && key == AudioObjectKey("", recordId)
  {
    if RecordIdFromAudioKey(key).Some? && UserIdFromAudioKey(key).None? {
      var parts, recordId := Split(key), RecordIdFromAudioKey(key).value;
      SplitThree(key);
      ParsedStem(parts[2], recordId);
      assert forall c | c in recordId :: c in parts[2];
      assert key == AudioObjectKey("", recordId);
    }
    if recordId :| recordId != "" && Plain(recordId) && key == AudioObjectKey("", recordId) {
      ParsePlain("", recordId);
    }
  }

  // --- owner prefixes --------------------------------------------------------------------------

  /** The first slash ends the first part. */
  lemma {:induction false} SameFirst(a: string, b: string, x: string, y: string)
    requires Plain(a) && Plain(b) && a + "/" + x == b + "/" + y
    ensures a == b && x == y
  {
    SplitPlain(a, x);
    SplitPlain(b, y);
    assert ([a] + Split(x))[0] == a && ([b] + Split(y))[0] == b;
    var k := |a| + 1;
    assert (a + "/" + x)[k..] == x && (b + "/" + y)[k..] == y;
  }

  /** An audio key lies under an owner's prefix exactly when it parses to that owner. */
  lemma UnderPrefix(userId: string, key: string)
    requires ValidOwner(userId) && RecordIdFromAudioKey(key).Some?
    ensures AudioPrefix(userId) <= key <==> UserIdFromAudioKey(key) == Some(userId)
  {
    var parts := Split(key);
    SplitThree(key);
    var tail := parts[1] + "/" + parts[2];
    assert key == PREFIX + "/" + tail;
    if AudioPrefix(userId) <= key {
      var rest := key[|AudioPrefix(userId)|..];
      assert key == AudioPrefix(userId) + rest;
      assert key == PREFIX + "/" + (userId + "/" + rest);
      SameFirst(PREFIX, PREFIX, tail, userId + "/" + rest);
      SameFirst(parts[1], userId, parts[2], rest);
    }
    if UserIdFromAudioKey(key) == Some(userId) {
      assert key == AudioPrefix(userId) + parts[2];
    }
  }

  /** No name lies under the prefixes of two different users. */
  lemma PrefixesApart(userId: string, other: string, name: string)
    requires ValidOwner(userId) && ValidOwner(other) && userId != other
    ensures !(AudioPrefix(userId) <= name && AudioPrefix(other) <= name)
  {
    if AudioPrefix(userId) <= name && AudioPrefix(other) <= name {
      var x, y := name[|AudioPrefix(userId)|..], name[|AudioPrefix(other)|..];
      assert name == PREFIX + "/" + (userId + "/" + x);
      assert name == PREFIX + "/" + (other + "/" + y);
      SameFirst(PREFIX, PREFIX, userId + "/" + x, other + "/" + y);
      SameFirst(userId, other, x, y);
    }
  }
}
