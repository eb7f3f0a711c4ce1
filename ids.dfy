/**
 * Transaction identifiers and the resolution of a user-typed identifier,
 * either a full UUID or a prefix of the canonical rendering of one stored id.
 */
module Ids {
  import opened Wrappers

  type Byte = x: int | 0 <= x < 256

  datatype UuidBytes = UuidBytes(bytes: seq<Byte>)

  /** A 128-bit UUID. */
  type Uuid = u: UuidBytes | |u.bytes| == 16 witness UuidBytes(seq(16, i => 0))

  function HexDigit(n: int): (c: char)
    requires 0 <= n < 16
    ensures c in "0123456789abcdef"
  {
    "0123456789abcdef"[n]
  }

  function Hex(bytes: seq<Byte>): (s: string)
    ensures |s| == 2 * |bytes|
  {
    if bytes == [] then [] else [HexDigit(bytes[0] / 16), HexDigit(bytes[0] % 16)] + Hex(bytes[1..])
  }

  lemma {:induction false} HexAlphabet(bytes: seq<Byte>)
    ensures forall c :: c in Hex(bytes) ==> c in "0123456789abcdef"
    decreases |bytes|
  {
    if bytes != [] {
      HexAlphabet(bytes[1..]);
    }
  }

  /** The canonical rendering: 32 lower-case hex digits in groups 8-4-4-4-12. */
  function ToString(u: Uuid): (s: string)
    ensures |s| == 36
    ensures s[8] == '-' && s[13] == '-' && s[18] == '-' && s[23] == '-'
  {
    var b := u.bytes;
    Hex(b[..4]) + "-" + Hex(b[4..6]) + "-" + Hex(b[6..8]) + "-" + Hex(b[8..10]) + "-" + Hex(b[10..])
  }

  /** Lower-casing of the ASCII letters; every other character is kept. */
  function ToLowerChar(c: char): (r: char)
    ensures 'A' <= c <= 'Z' ==> r as int == c as int + 32
    ensures !('A' <= c <= 'Z') ==> r == c
  {
    if 'A' <= c <= 'Z' then (c as int + 32) as char else c
  }

  function ToLower(s: string): (r: string)
    ensures |r| == |s|
    ensures forall i :: 0 <= i < |s| ==> r[i] == ToLowerChar(s[i])
  {
    seq(|s|, i requires 0 <= i < |s| => ToLowerChar(s[i]))
  }

  /** The canonical rendering uses only lower-case hex digits and dashes. */
  lemma ToStringAlphabet(u: Uuid)
    ensures forall c :: c in ToString(u) ==> c in "0123456789abcdef-"
  {
    var b := u.bytes;
    HexAlphabet(b[..4]);
    HexAlphabet(b[4..6]);
    HexAlphabet(b[6..8]);
    HexAlphabet(b[8..10]);
    HexAlphabet(b[10..]);
  }

  /** The canonical rendering has no upper-case letter to lower. */
  lemma ToStringIsLowerCase(u: Uuid)
    ensures ToLower(ToString(u)) == ToString(u)
  {
    var s := ToString(u);
    ToStringAlphabet(u);
    forall i | 0 <= i < |s| ensures ToLowerChar(s[i]) == s[i] {
      assert s[i] in s;
    }
  }

  /** Number of bytes the UTF-8 encoding of a character takes. */
  function Utf8Width(c: char): (n: int)
    ensures 1 <= n <= 4
  {
    if c as int < 0x80 then 1 else if c as int < 0x800 then 2 else if c as int < 0x10000 then 3 else 4
  }

  /** Length in bytes of the UTF-8 encoding of s: the length a string reports. */
  function Utf8Length(s: string): (n: nat)
    ensures |s| <= n <= 4 * |s|
    ensures (forall i :: 0 <= i < |s| ==> s[i] as int < 0x80) ==> n == |s|
  {
    if s == [] then 0 else Utf8Width(s[0]) + Utf8Length(s[1..])
  }

  /** The lower-cased rendering of id starts with prefix. */
  predicate Matches(prefix: string, id: Uuid) {
    prefix <= ToLower(ToString(id))
  }

  /** Matches as a test on ids, for the list operations below. */
  function MatchesPrefix(prefix: string): (test: Uuid -> bool)
    ensures forall id :: test(id) == Matches(prefix, id)
  {
    (id: Uuid) => Matches(prefix, id)
  }

  /** The ids of the list that pass test, in list order. */
  function Select(ids: seq<Uuid>, test: Uuid -> bool): (r: seq<Uuid>)
    ensures |r| <= |ids|
    ensures forall x :: x in r ==> x in ids && test(x)
  {
    if ids == [] then []
    else (if test(ids[0]) then [ids[0]] else []) + Select(ids[1..], test)
  }

  /** No position of the list holds an id that passes test. */
  predicate NonePass(ids: seq<Uuid>, test: Uuid -> bool) {
    forall i :: 0 <= i < |ids| ==> !test(ids[i])
  }

  /** Position i is the only position of the list whose id passes test. */
  predicate OnlyPassAt(ids: seq<Uuid>, test: Uuid -> bool, i: int) {
    && 0 <= i < |ids|
    && test(ids[i])
    && (forall j :: 0 <= j < |ids| && test(ids[j]) ==> j == i)
  }

  /** Two different positions of the list hold ids that pass test. */
  predicate TwoPass(ids: seq<Uuid>, test: Uuid -> bool) {
    exists i, j :: 0 <= i < j < |ids| && test(ids[i]) && test(ids[j])
  }

  lemma NonePassCons(ids: seq<Uuid>, test: Uuid -> bool)
    requires ids != []
    ensures NonePass(ids, test) <==> !test(ids[0]) && NonePass(ids[1..], test)
  {
    var tail := ids[1..];
    if !test(ids[0]) && NonePass(tail, test) {
      forall i | 0 <= i < |ids| ensures !test(ids[i]) {
        if i > 0 {
          assert ids[i] == tail[i - 1];
        }
      }
    }
    if NonePass(ids, test) {
      forall i | 0 <= i < |tail| ensures !test(tail[i]) {
        assert tail[i] == ids[i + 1];
      }
    }
  }

  lemma TwoPassCons(ids: seq<Uuid>, test: Uuid -> bool)
    requires ids != []
    ensures TwoPass(ids, test) <==>
      (test(ids[0]) && !NonePass(ids[1..], test)) || TwoPass(ids[1..], test)
  {
    var tail := ids[1..];
    if TwoPass(ids, test) {
      var i, j :| 0 <= i < j < |ids| && test(ids[i]) && test(ids[j]);
      assert test(tail[j - 1]);
      if i > 0 {
        assert test(tail[i - 1]);
      }
    }
    if test(ids[0]) && !NonePass(tail, test) {
      var k :| 0 <= k < |tail| && test(tail[k]);
      assert test(ids[k + 1]);
    }
    if TwoPass(tail, test) {
      var i, j :| 0 <= i < j < |tail| && test(tail[i]) && test(tail[j]);
      assert test(ids[i + 1]) && test(ids[j + 1]);
    }
  }

  lemma OnlyPassCons(ids: seq<Uuid>, test: Uuid -> bool, i: int)
    requires ids != [] && 0 < i
    ensures OnlyPassAt(ids, test, i) <==> !test(ids[0]) && OnlyPassAt(ids[1..], test, i - 1)
  {
    var tail := ids[1..];
    if !test(ids[0]) && OnlyPassAt(tail, test, i - 1) {
      forall j | 0 <= j < |ids| && test(ids[j]) ensures j == i {
        assert j != 0;
        assert tail[j - 1] == ids[j];
      }
    }
    if OnlyPassAt(ids, test, i) {
      forall j | 0 <= j < |tail| && test(tail[j]) ensures j == i - 1 {
        assert tail[j] == ids[j + 1];
      }
    }
  }

  lemma OnlyPassHead(ids: seq<Uuid>, test: Uuid -> bool)
    requires ids != []
    ensures OnlyPassAt(ids, test, 0) <==> test(ids[0]) && NonePass(ids[1..], test)
  {
    var tail := ids[1..];
    if test(ids[0]) && NonePass(tail, test) {
      forall j | 0 < j < |ids| ensures !test(ids[j]) {
        assert ids[j] == tail[j - 1];
      }
    }
    if OnlyPassAt(ids, test, 0) {
      forall j | 0 <= j < |tail| ensures !test(tail[j]) {
        assert tail[j] == ids[j + 1];
      }
    }
  }

  /**
   * The length of the selection decides which of the three outcomes a list
   * has: no passing position, exactly one, or at least two. Equal ids at two
   * positions count twice.
   */
  lemma {:induction false} SelectCount(ids: seq<Uuid>, test: Uuid -> bool)
    ensures |Select(ids, test)| == 0 <==> NonePass(ids, test)
    ensures |Select(ids, test)| == 1 ==>
      exists i :: OnlyPassAt(ids, test, i) && ids[i] == Select(ids, test)[0]
    ensures |Select(ids, test)| >= 2 <==> TwoPass(ids, test)
    decreases |ids|
  {
    if ids != [] {
      var tail := ids[1..];
      var rest := Select(tail, test);
      SelectCount(tail, test);
      NonePassCons(ids, test);
      TwoPassCons(ids, test);
      assert Select(ids, test) == (if test(ids[0]) then [ids[0]] else []) + rest;
      if test(ids[0]) {
        if |rest| == 0 {
          OnlyPassHead(ids, test);
        }
      } else if |rest| == 1 {
        var i :| OnlyPassAt(tail, test, i) && tail[i] == rest[0];
        OnlyPassCons(ids, test, i + 1);
      }
    }
  }

  /** The stored ids that start with prefix, in list order. */
  function Matching(ids: seq<Uuid>, prefix: string): (r: seq<Uuid>)
    ensures forall x :: x in r ==> x in ids && Matches(prefix, x)
  {
    Select(ids, MatchesPrefix(prefix))
  }

  /** Why a typed identifier could not be resolved. */
  datatype IdError =
    | InvalidFormat  // not a full UUID and shorter than 8 bytes
    | NoMatch        // no stored id starts with it
    | Ambiguous      // several stored ids start with it

  /**
   * Resolves a typed identifier against the stored ids. parseFull stands for
   * the UUID library's parser of full UUIDs: an identifier it accepts is
   * returned as it is, whether or not an id of the list equals it.
   */
  function ParseUuid(s: string, ids: seq<Uuid>, parseFull: string -> Option<Uuid>): (r: Result<Uuid, IdError>)
    ensures parseFull(s).Some? ==> r == Ok(parseFull(s).value)
    ensures parseFull(s).None? && Utf8Length(s) < 8 ==> r == Err(InvalidFormat)
    ensures parseFull(s).None? && Utf8Length(s) >= 8 ==>
      var prefix := ToLower(s);
      && (r == Err(NoMatch) <==> NonePass(ids, MatchesPrefix(prefix)))
      && (r == Err(Ambiguous) <==> TwoPass(ids, MatchesPrefix(prefix)))
      && (r.Ok? ==> exists i :: OnlyPassAt(ids, MatchesPrefix(prefix), i) && ids[i] == r.value)
      && ((exists i :: OnlyPassAt(ids, MatchesPrefix(prefix), i)) ==> r.Ok?)
      && r != Err(InvalidFormat)
  {
    match parseFull(s)
    case Some(uuid) => Ok(uuid)
    case None =>
      if Utf8Length(s) >= 8 then
        var prefix := ToLower(s);
        var matching := Matching(ids, prefix);
        SelectCount(ids, MatchesPrefix(prefix));
        if |matching| == 0 then Err(NoMatch)
        else if |matching| == 1 then Ok(matching[0])
        else Err(Ambiguous)
      else
        Err(InvalidFormat)
  }
}
