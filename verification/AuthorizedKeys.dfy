/** authorizeKey: an idempotent append to authorized_keys, with a membership test over split and trimmed lines. */
module AuthorizedKeys {
  import opened Store
  import opened LineFile

  // ---- bytes.TrimSpace ----

  // The UTF-8 encodings of the other runes that unicode.IsSpace accepts.

  predicate IsSpacePair(a: Byte, b: Byte) {
    a == 0xC2 && (b == 0x85 || b == 0xA0)
  }

  predicate IsSpaceTriple(a: Byte, b: Byte, c: Byte) {
    || (a == 0xE1 && b == 0x9A && c == 0x80)
    || (a == 0xE2 && b == 0x80 && (0x80 <= c <= 0x8A || c == 0xA8 || c == 0xA9 || c == 0xAF))
    || (a == 0xE2 && b == 0x81 && c == 0x9F)
    || (a == 0xE3 && b == 0x80 && c == 0x80)
  }

  /** The length of the space rune that s starts with, or 0. */
  function LeadingSpace(s: Bytes): (n: nat)
    ensures n <= |s|
  {
    if |s| >= 1 && IsAsciiSpace(s[0]) then 1
    else if |s| >= 2 && IsSpacePair(s[0], s[1]) then 2
    else if |s| >= 3 && IsSpaceTriple(s[0], s[1], s[2]) then 3
    else 0
  }

  /** The length of the space rune that s ends with, or 0. */
  function TrailingSpace(s: Bytes): (n: nat)
    ensures n <= |s|
  {
    var n := |s|;
    if n >= 1 && IsAsciiSpace(s[n - 1]) then 1
    else if n >= 2 && IsSpacePair(s[n - 2], s[n - 1]) then 2
    else if n >= 3 && IsSpaceTriple(s[n - 3], s[n - 2], s[n - 1]) then 3
    else 0
  }

  function TrimLeft(s: Bytes): Bytes
    decreases |s|
  {
    if LeadingSpace(s) == 0 then s else TrimLeft(s[LeadingSpace(s)..])
  }

  function TrimRight(s: Bytes): Bytes
    decreases |s|
  {
    if TrailingSpace(s) == 0 then s else TrimRight(s[..|s| - TrailingSpace(s)])
  }

  function TrimSpace(s: Bytes): Bytes {
    TrimRight(TrimLeft(s))
  }

  lemma {:induction false} TrimBeforeKey(x: Bytes, k: Bytes)
    requires Canonical(k)
    ensures TrimLeft(x + k) == TrimLeft(x) + k
    decreases |x|
  {
    var s, n := x + k, LeadingSpace(x);
    assert LeadingSpace(s) == n;
    if n != 0 {
      assert s[n..] == x[n..] + k;
      TrimBeforeKey(x[n..], k);
    }
  }

  lemma NoSpaceAfterKey(s: Bytes)
    requires s != [] && s[|s| - 1] < 0x80 && !IsAsciiSpace(s[|s| - 1])
    ensures TrailingSpace(s) == 0
  {
  }

  /** A line that ends in a key trims to what precedes the key, trimmed on the left, and the key. */
  lemma TrimKeyLine(x: Bytes, k: Bytes)
    requires Canonical(k)
    ensures TrimSpace(x + k) == TrimLeft(x) + k
  {
    TrimBeforeKey(x, k);
    NoSpaceAfterKey(TrimLeft(x) + k);
  }

  lemma {:induction false} TrimRightShortens(s: Bytes)
    ensures |TrimRight(s)| <= |s|
    decreases |s|
  {
    if TrailingSpace(s) == 0 {
    } else {
      TrimRightShortens(s[..|s| - TrailingSpace(s)]);
    }
  }

  lemma TrimSpaceKeepsKeys()
    ensures KeepsKeys(TrimSpace)
  {
    forall k | Canonical(k) ensures TrimSpace(k) == k {
      TrimKeyLine([], k);
      assert [] + k == k;
    }
  }

  // ---- what trimming means ----

  /** The UTF-8 encodings of the 25 runes that Unicode calls white space. */
  predicate IsSpaceRune(b: Bytes) {
    || (|b| == 1 && (b[0] == 0x09 || b[0] == 0x0A || b[0] == 0x0B || b[0] == 0x0C || b[0] == 0x0D || b[0] == 0x20))
    || (|b| == 2 && b[0] == 0xC2 && (b[1] == 0x85 || b[1] == 0xA0))
    || (|b| == 3 && b[0] == 0xE1 && b[1] == 0x9A && b[2] == 0x80)
    || (|b| == 3 && b[0] == 0xE2 && b[1] == 0x80
        && (0x80 <= b[2] <= 0x8A || b[2] == 0xA8 || b[2] == 0xA9 || b[2] == 0xAF))
    || (|b| == 3 && b[0] == 0xE2 && b[1] == 0x81 && b[2] == 0x9F)
    || (|b| == 3 && b[0] == 0xE3 && b[1] == 0x80 && b[2] == 0x80)
  }

  ghost predicate AllSpace(runes: seq<Bytes>) {
    forall i | 0 <= i < |runes| :: IsSpaceRune(runes[i])
  }

  function Concat(runes: seq<Bytes>): Bytes {
    if runes == [] then [] else runes[0] + Concat(runes[1..])
  }

  ghost predicate StartsOrEndsInSpace(s: Bytes) {
    exists rune: Bytes :: IsSpaceRune(rune) && |rune| <= |s| && (s[..|rune|] == rune || s[|s| - |rune|..] == rune)
  }

  lemma LeadingSpaceIsRune(s: Bytes)
    ensures LeadingSpace(s) > 0 ==> IsSpaceRune(s[..LeadingSpace(s)])
  {
  }

  lemma TrailingSpaceIsRune(s: Bytes)
    ensures TrailingSpace(s) > 0 ==> IsSpaceRune(s[|s| - TrailingSpace(s)..])
  {
  }

  lemma RuneLeads(s: Bytes, rune: Bytes)
    requires IsSpaceRune(rune) && |rune| <= |s| && s[..|rune|] == rune
    ensures LeadingSpace(s) == |rune|
  {
    assert forall i | 0 <= i < |rune| :: s[i] == rune[i];
  }

  lemma RuneTrails(s: Bytes, rune: Bytes)
    requires IsSpaceRune(rune) && |rune| <= |s| && s[|s| - |rune|..] == rune
    ensures TrailingSpace(s) == |rune|
  {
    assert forall i | 0 <= i < |rune| :: s[|s| - |rune| + i] == rune[i];
  }

  lemma {:induction false} ConcatLast(runes: seq<Bytes>, last: Bytes)
    ensures Concat(runes + [last]) == Concat(runes) + last
  {
    if runes == [] {
      assert ([] + [last])[1..] == [];
    } else {
      ConcatLast(runes[1..], last);
      assert (runes + [last])[1..] == runes[1..] + [last];
    }
  }

  lemma AllSpaceCons(rune: Bytes, rest: seq<Bytes>)
    requires IsSpaceRune(rune) && AllSpace(rest)
    ensures AllSpace([rune] + rest) && Concat([rune] + rest) == rune + Concat(rest)
  {
    assert ([rune] + rest)[1..] == rest;
    forall i | 0 <= i < |rest| + 1 ensures IsSpaceRune(([rune] + rest)[i]) {
      assert i > 0 ==> ([rune] + rest)[i] == rest[i - 1];
    }
  }

  lemma AllSpaceSnoc(rest: seq<Bytes>, rune: Bytes)
    requires IsSpaceRune(rune) && AllSpace(rest)
    ensures AllSpace(rest + [rune]) && Concat(rest + [rune]) == Concat(rest) + rune
  {
    ConcatLast(rest, rune);
    forall i | 0 <= i < |rest| + 1 ensures IsSpaceRune((rest + [rune])[i]) {
      assert i < |rest| ==> (rest + [rune])[i] == rest[i];
    }
  }

  lemma Prepend(s: Bytes, n: nat, a: Bytes, b: Bytes)
    requires n <= |s| && s[n..] == a + b
    ensures s == s[..n] + a + b
  {
    assert s == s[..n] + s[n..];
  }

  lemma {:induction false} TrimLeftEnds(s: Bytes)
    ensures LeadingSpace(TrimLeft(s)) == 0
    decreases |s|
  {
    if LeadingSpace(s) == 0 {
    } else {
      TrimLeftEnds(s[LeadingSpace(s)..]);
    }
  }

  lemma {:induction false} TrimLeftSplits(s: Bytes) returns (runes: seq<Bytes>)
    ensures AllSpace(runes) && s == Concat(runes) + TrimLeft(s)
    decreases |s|
  {
    var n := LeadingSpace(s);
    if n == 0 {
      runes := [];
    } else {
      var rest := TrimLeftSplits(s[n..]);
      LeadingSpaceIsRune(s);
      AllSpaceCons(s[..n], rest);
      runes := [s[..n]] + rest;
      Prepend(s, n, Concat(rest), TrimLeft(s[n..]));
    }
  }

  lemma Postpend(s: Bytes, n: nat, a: Bytes, b: Bytes)
    requires n <= |s| && s[..n] == a + b
    ensures s == a + (b + s[n..])
  {
    assert s == s[..n] + s[n..];
  }

  lemma {:induction false} TrimRightEnds(s: Bytes)
    ensures TrailingSpace(TrimRight(s)) == 0
    decreases |s|
  {
    if TrailingSpace(s) == 0 {
    } else {
      TrimRightEnds(s[..|s| - TrailingSpace(s)]);
    }
  }

  lemma {:induction false} TrimRightSplits(s: Bytes) returns (runes: seq<Bytes>)
    ensures AllSpace(runes) && s == TrimRight(s) + Concat(runes)
    decreases |s|
  {
    var n := |s| - TrailingSpace(s);
    if n == |s| {
      runes := [];
    } else {
      var rest := TrimRightSplits(s[..n]);
      TrailingSpaceIsRune(s);
      AllSpaceSnoc(rest, s[n..]);
      runes := rest + [s[n..]];
      Postpend(s, n, TrimRight(s[..n]), Concat(rest));
    }
  }

  lemma NoSpaceAtEnds(left: Bytes, t: Bytes)
    requires t <= left && LeadingSpace(left) == 0 && TrailingSpace(t) == 0
    ensures !StartsOrEndsInSpace(t)
  {
    if StartsOrEndsInSpace(t) {
      var rune: Bytes :| IsSpaceRune(rune) && |rune| <= |t| && (t[..|rune|] == rune || t[|t| - |rune|..] == rune);
      if t[..|rune|] == rune {
        assert left[..|rune|] == rune;
        RuneLeads(left, rune);
      } else {
        RuneTrails(t, rune);
      }
    }
  }

  lemma SplitInThree(s: Bytes, a: Bytes, rest: Bytes, b: Bytes, c: Bytes)
    requires s == a + rest && rest == b + c
    ensures s == a + b + c && b <= rest
  {
  }

  /** Trimming takes white space off both ends, and all of it. */
  lemma TrimSpaceSplits(s: Bytes) returns (before: seq<Bytes>, after: seq<Bytes>)
    ensures AllSpace(before) && AllSpace(after) && s == Concat(before) + TrimSpace(s) + Concat(after)
    ensures !StartsOrEndsInSpace(TrimSpace(s))
  {
    before := TrimLeftSplits(s);
    var left, t := TrimLeft(s), TrimSpace(s);
    after := TrimRightSplits(left);
    TrimLeftEnds(s);
    TrimRightEnds(left);
    SplitInThree(s, Concat(before), left, t, Concat(after));
    NoSpaceAtEnds(left, t);
  }

  lemma {:induction false} TrimLeftDrops(runes: seq<Bytes>, s: Bytes)
    requires AllSpace(runes)
    ensures TrimLeft(Concat(runes) + s) == TrimLeft(s)
    decreases |runes|
  {
    if runes == [] {
      assert [] + s == s;
    } else {
      var rest := Concat(runes[1..]) + s;
      assert Concat(runes) + s == runes[0] + rest;
      RuneLeads(runes[0] + rest, runes[0]);
      assert (runes[0] + rest)[|runes[0]|..] == rest;
      TrimLeftDrops(runes[1..], s);
    }
  }

  lemma {:induction false} TrimRightDrops(s: Bytes, runes: seq<Bytes>)
    requires AllSpace(runes)
    ensures TrimRight(s + Concat(runes)) == TrimRight(s)
    decreases |runes|
  {
    if runes == [] {
      assert s + [] == s;
    } else {
      var n := |runes| - 1;
      var rest := s + Concat(runes[..n]);
      assert runes == runes[..n] + [runes[n]];
      ConcatLast(runes[..n], runes[n]);
      assert s + Concat(runes) == rest + runes[n];
      RuneTrails(rest + runes[n], runes[n]);
      assert (rest + runes[n])[..|rest|] == rest;
      TrimRightDrops(s, runes[..n]);
    }
  }

  /** A key trims to itself whatever white space stands before and after it. */
  lemma PaddedKeyTrims(before: seq<Bytes>, k: Bytes, after: seq<Bytes>)
    requires AllSpace(before) && Canonical(k) && AllSpace(after)
    ensures TrimSpace(Concat(before) + k + Concat(after)) == k
  {
    var s := k + Concat(after);
    assert Concat(before) + k + Concat(after) == Concat(before) + s;
    TrimLeftDrops(before, s);
    assert s[0] == k[0] && LeadingSpace(s) == 0;
    TrimRightDrops(k, after);
    NoSpaceAfterKey(k);
  }

  // ---- authorizeKey ----

  class AuthorizedKeysFile {
    var file: File

    constructor (file: File)
      ensures this.file == file
    {
      this.file := file;
    }

    /** A file that cannot be read is written without the test; one that cannot be opened and written is left alone. */
    method AuthorizeKey(canonical: Bytes, readable: bool, writable: bool) returns (err: bool)
      modifies this
      ensures file == Authorize(TrimSpace, old(file), Call(canonical, readable, writable))
      ensures !err <==> Succeeds(TrimSpace, old(file), Call(canonical, readable, writable))
      ensures var text := if old(file).Some? then old(file).value else [];
        var found :=
          readable && old(file).Some? && exists i :: 0 <= i < |Split(text)| && TrimSpace(Split(text)[i]) == canonical;
        && (err <==> !found && !writable)
        && file == if found || !writable then old(file) else Some(text + canonical + [10])
    {
      if readable && file.Some? {
        var lines := Split(file.value);
        for i := 0 to |lines|
          invariant file == old(file)
          invariant forall j | 0 <= j < i :: TrimSpace(lines[j]) != canonical
        {
          if TrimSpace(lines[i]) == canonical {
            assert TrimSpace(Split(old(file).value)[i]) == canonical;
            return false;
          }
        }
      }
      err := !writable;
      if writable {
        assert Content(file) + (canonical + [NEWLINE]) == Content(file) + canonical + [10];
        file := Append(file, canonical);
      }
    }
  }

  /** A readable file in which some line is the key, with any white space around it, is left as it is. */
  lemma PaddedKeyIsFound(file: File, call: Call, i: nat, before: seq<Bytes>, after: seq<Bytes>)
    requires Canonical(call.key) && call.readable && file.Some? && i < |Split(file.value)|
    requires AllSpace(before) && AllSpace(after) && Split(file.value)[i] == Concat(before) + call.key + Concat(after)
    ensures Authorize(TrimSpace, file, call) == file && Succeeds(TrimSpace, file, call)
  {
    PaddedKeyTrims(before, call.key, after);
  }

  lemma GluedKey(rest: Bytes, k: Bytes, other: Bytes)
    requires Canonical(k)
    ensures TrimSpace(rest + k) == k <==> TrimLeft(rest) == []
    ensures TrimSpace(rest) == other != [] ==> TrimSpace(rest + k) != other
  {
    TrimKeyLine(rest, k);
    var left := TrimLeft(rest);
    assert |left + k| == |left| + |k|;
    assert left == [] ==> left + k == k;
    TrimRightShortens(left);
  }

  /**
   After a call without error the key is a line of the file exactly if the test found it, or some terminated line was
   the key, or the file's unterminated rest is blank.
   */
  lemma KeyAuthorizedExactly(file: File, call: Call)
    requires Canonical(call.key) && Succeeds(TrimSpace, file, call)
    ensures HasKey(TrimSpace, Authorize(TrimSpace, file, call), call.key)
            <==> || FindsKey(TrimSpace, file, call)
                 || IsLine(TrimSpace, Lines(file), call.key)
                 || TrimLeft(Unterminated(file)) == []
  {
    TrimSpaceKeepsKeys();
    if Appends(TrimSpace, file, call) {
      HasKeyAfterAppend(TrimSpace, file, call.key, call.key);
      GluedKey(Unterminated(file), call.key, call.key);
    }
  }

  /**
   A call takes a key off the file, its own or another, exactly if it appends and that key stood on the unterminated
   rest alone; for its own key this takes a read that failed.
   */
  lemma KeyLostExactly(file: File, call: Call, k: Bytes)
    requires Canonical(call.key) && Canonical(k)
    ensures HasKey(TrimSpace, file, k) && !HasKey(TrimSpace, Authorize(TrimSpace, file, call), k)
            <==> && Appends(TrimSpace, file, call)
                 && TrimSpace(Unterminated(file)) == k && !IsLine(TrimSpace, Lines(file), k)
    ensures HasKey(TrimSpace, file, k) && !HasKey(TrimSpace, Authorize(TrimSpace, file, call), k) && k == call.key
            ==> !call.readable
  {
    TrimSpaceKeepsKeys();
    HasKeyByLines(TrimSpace, file, k);
    if Appends(TrimSpace, file, call) {
      HasKeyAfterAppend(TrimSpace, file, call.key, k);
      GluedKey(Unterminated(file), call.key, k);
    }
  }

  /**
   An unterminated key at the end of the file defeats a call that appends: the new key is glued to it, so that
   afterwards either of them authorizes only where another line repeats it.
   */
  lemma GluedToUnterminatedKey(file: File, call: Call)
    requires Canonical(Unterminated(file)) && Canonical(call.key) && Appends(TrimSpace, file, call)
    ensures var file', last := Authorize(TrimSpace, file, call), Unterminated(file);
      && file' == Some(Content(file) + call.key + [NEWLINE]) && Lines(file') == Lines(file) + [last + call.key]
      && (HasKey(TrimSpace, file', call.key) <==> IsLine(TrimSpace, Lines(file), call.key))
      && (HasKey(TrimSpace, file', last) <==> IsLine(TrimSpace, Lines(file), last))
  {
    var k, last := call.key, Unterminated(file);
    TrimSpaceKeepsKeys();
    AppendedLines(file, k);
    assert Content(file) + (k + [NEWLINE]) == Content(file) + k + [NEWLINE];
    HasKeyAfterAppend(TrimSpace, file, k, k);
    HasKeyAfterAppend(TrimSpace, file, k, last);
    GluedKey(last, k, last);
  }

  /**
   Any sequential run over a terminated file, whichever reads and writes fail: it stays terminated, keeps every old
   line in place, gains at the end only keys of calls that could write, and has the key of every call without error as
   a line.
   */
  lemma SequentialRun(file: File, calls: seq<Call>)
    requires Unterminated(file) == [] && CanonicalKeys(calls)
    ensures var file' := AuthorizeAll(TrimSpace, file, calls);
      var added := Added(TrimSpace, Lines(file), calls);
      && Unterminated(file') == [] && Lines(file') == Lines(file) + added
      && (forall i | 0 <= i < |added| :: exists n :: 0 <= n < |calls| && calls[n].writable && calls[n].key == added[i])
      && (forall i | 0 <= i < |calls| && SucceedsAt(TrimSpace, file, calls, i) ::
            IsLine(TrimSpace, Lines(file'), calls[i].key))
  {
    TrimSpaceKeepsKeys();
    RunAppendsAdded(TrimSpace, file, calls);
    var added := Added(TrimSpace, Lines(file), calls);
    forall i | 0 <= i < |added|
      ensures exists n :: 0 <= n < |calls| && calls[n].writable && calls[n].key == added[i]
    {
      AddedAreKeys(TrimSpace, Lines(file), calls, added[i]);
    }
    forall i: nat | i < |calls| && SucceedsAt(TrimSpace, file, calls, i)
      ensures IsLine(TrimSpace, Lines(AuthorizeAll(TrimSpace, file, calls)), calls[i].key)
    {
      SuccessLasts(TrimSpace, file, calls, i);
    }
  }

  /**
   Such a run adds each key once, and none that was there, exactly if no call that failed to read the file writes a key
   that was a line at the start or that an earlier call could write.
   */
  lemma EachKeyOnceExactly(file: File, calls: seq<Call>)
    requires Unterminated(file) == [] && CanonicalKeys(calls)
    ensures var added := Added(TrimSpace, Lines(file), calls);
      && (forall i | 0 <= i < |added| :: !IsLine(TrimSpace, Lines(file), added[i]))
      && (forall i, j | 0 <= i < j < |added| :: added[i] != added[j])
      <==> !WritesBlindly(TrimSpace, Lines(file), calls)
  {
    TrimSpaceKeepsKeys();
    SequentialRun(file, calls);
    AddedAreNewExactly(TrimSpace, Lines(file), calls);
    EachNewExactly(TrimSpace, Lines(file), Added(TrimSpace, Lines(file), calls));
  }

  /** Repeating a call that had no error leaves a terminated file as it is exactly if it can read or cannot write. */
  lemma RepeatChangesNothingExactly(file: File, call: Call, again: Call)
    requires Canonical(call.key) && Unterminated(file) == [] && Succeeds(TrimSpace, file, call) && again.key == call.key
    ensures var file' := Authorize(TrimSpace, file, call);
      Authorize(TrimSpace, file', again) == file' <==> again.readable || !again.writable
  {
    KeyAuthorizedExactly(file, call);
    var file' := Authorize(TrimSpace, file, call);
    assert |Content(Append(file', again.key))| > |Content(file')|;
  }
}
