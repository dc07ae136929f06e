/**
 A file of lines to which a key is appended unless some line, once trimmed, is that key. Nothing here depends on how
 lines are trimmed, only on trimming leaving keys and empty lines as they are.
 */
module LineFile {
  import opened Store

  type Byte = b: int | 0 <= b < 256
  type Bytes = seq<Byte>

  const NEWLINE: Byte := 10

  // ---- bytes.Split at newlines ----

  /** The lines of a text whose first byte is x and whose rest has these lines. */
  function Prefixed(x: Byte, rest: seq<Bytes>): seq<Bytes>
    requires |rest| > 0
  {
    if x == NEWLINE then [[]] + rest else [[x] + rest[0]] + rest[1..]
  }

  function Split(s: Bytes): (lines: seq<Bytes>)
    ensures |lines| > 0
  {
    if s == [] then [[]] else Prefixed(s[0], Split(s[1..]))
  }

  function Join(lines: seq<Bytes>): Bytes
    requires |lines| > 0
  {
    if |lines| == 1 then lines[0] else lines[0] + [NEWLINE] + Join(lines[1..])
  }

  lemma {:induction false} JoinSplit(s: Bytes)
    ensures Join(Split(s)) == s
    ensures forall i | 0 <= i < |Split(s)| :: NEWLINE !in Split(s)[i]
  {
    if s == [] {
    } else {
      JoinSplit(s[1..]);
      var rest := Split(s[1..]);
      if s[0] == NEWLINE {
        assert Split(s)[1..] == rest;
      } else if |rest| > 1 {
        assert Split(s)[1..] == rest[1..];
        assert s == [s[0]] + (rest[0] + [NEWLINE] + Join(rest[1..]));
      }
    }
  }

  /** Splitting around a newline splits both sides. */
  lemma {:induction false} SplitConcat(a: Bytes, b: Bytes)
    ensures Split(a + [NEWLINE] + b) == Split(a) + Split(b)
  {
    var s := a + [NEWLINE] + b;
    if a == [] {
      assert s[1..] == b;
    } else {
      assert s[1..] == a[1..] + [NEWLINE] + b;
      SplitConcat(a[1..], b);
    }
  }

  lemma {:induction false} SplitNoNewline(k: Bytes)
    requires NEWLINE !in k
    ensures Split(k) == [k]
  {
    if k == [] {
    } else {
      SplitNoNewline(k[1..]);
      assert k[0] in k && [k[0]] + k[1..] == k;
    }
  }

  /** The lines with the last one lengthened. */
  function Lengthened(lines: seq<Bytes>, k: Bytes): seq<Bytes>
    requires |lines| > 0
  {
    lines[..|lines| - 1] + [lines[|lines| - 1] + k]
  }

  lemma LengthenPrefixed(x: Byte, rest: seq<Bytes>, k: Bytes)
    requires |rest| > 0
    ensures Prefixed(x, Lengthened(rest, k)) == Lengthened(Prefixed(x, rest), k)
  {
    if x != NEWLINE && |rest| == 1 {
      assert [x] + (rest[0] + k) == [x] + rest[0] + k;
    }
  }

  /** Text without a newline lengthens the last piece. */
  lemma {:induction false} SplitLengthen(a: Bytes, k: Bytes)
    requires NEWLINE !in k
    ensures Split(a + k) == Lengthened(Split(a), k)
  {
    if a == [] {
      SplitNoNewline(k);
      assert a + k == k;
    } else {
      assert (a + k)[1..] == a[1..] + k;
      SplitLengthen(a[1..], k);
      LengthenPrefixed(a[0], Split(a[1..]), k);
    }
  }

  predicate IsAsciiSpace(b: Byte) {
    9 <= b <= 13 || b == 32
  }

  /** What re-marshalling and trimming a parsed key yields: one ASCII line, not empty, no surrounding whitespace. */
  ghost predicate Canonical(k: Bytes) {
    && k != [] && NEWLINE !in k
    && (forall i | 0 <= i < |k| :: k[i] < 0x80)
    && !IsAsciiSpace(k[0]) && !IsAsciiSpace(k[|k| - 1])
  }

  // ---- files ----

  /** A file that may be absent, as os.ReadFile and an appending os.OpenFile see it. */
  type File = Option<Bytes>

  type Trim = Bytes -> Bytes

  /** Trimming leaves keys and empty lines as they are. */
  ghost predicate KeepsKeys(trim: Trim) {
    trim([]) == [] && forall k | Canonical(k) :: trim(k) == k
  }

  function Content(file: File): Bytes {
    if file.Some? then file.value else []
  }

  /** What follows the last newline; empty for an absent, empty or newline-terminated file. */
  function Unterminated(file: File): Bytes {
    var pieces := Split(Content(file));
    pieces[|pieces| - 1]
  }

  /** The lines that a newline ends. */
  function Lines(file: File): seq<Bytes> {
    var pieces := Split(Content(file));
    pieces[..|pieces| - 1]
  }

  /** All lines, with the unterminated rest as a last line if there is one. */
  function AllLines(file: File): seq<Bytes> {
    Lines(file) + (if Unterminated(file) == [] then [] else [Unterminated(file)])
  }

  ghost predicate IsLine(trim: Trim, lines: seq<Bytes>, k: Bytes) {
    exists i :: 0 <= i < |lines| && trim(lines[i]) == k
  }

  /** Some line of the file trims to the key. */
  ghost predicate HasKey(trim: Trim, file: File, k: Bytes) {
    file.Some? && IsLine(trim, Split(file.value), k)
  }

  function Append(file: File, k: Bytes): File {
    Some(Content(file) + (k + [NEWLINE]))
  }

  /** One call of authorizeKey, and whether the file can then be read and can be written. */
  datatype Call = Call(key: Bytes, readable: bool, writable: bool)

  /** The membership test answers yes: a read that fails is as good as no test. */
  ghost predicate FindsKey(trim: Trim, file: File, call: Call) {
    call.readable && HasKey(trim, file, call.key)
  }

  ghost predicate Appends(trim: Trim, file: File, call: Call) {
    !FindsKey(trim, file, call) && call.writable
  }

  ghost predicate Succeeds(trim: Trim, file: File, call: Call) {
    FindsKey(trim, file, call) || call.writable
  }

  ghost function Authorize(trim: Trim, file: File, call: Call): File {
    if Appends(trim, file, call) then Append(file, call.key) else file
  }

  // ---- one call, on any file ----

  lemma IsLineExtend(trim: Trim, lines: seq<Bytes>, x: Bytes, k: Bytes)
    ensures IsLine(trim, lines + [x], k) <==> IsLine(trim, lines, k) || trim(x) == k
  {
    var longer := lines + [x];
    if i :| 0 <= i < |lines| && trim(lines[i]) == k {
      assert longer[i] == lines[i];
    }
    assert longer[|lines|] == x;
  }

  /** On any file the key is on a terminated line or on the unterminated rest. */
  lemma HasKeyByLines(trim: Trim, file: File, k: Bytes)
    requires KeepsKeys(trim) && k != []
    ensures HasKey(trim, file, k) <==> IsLine(trim, Lines(file), k) || trim(Unterminated(file)) == k
  {
    assert Split(Content(file)) == Lines(file) + [Unterminated(file)];
    IsLineExtend(trim, Lines(file), Unterminated(file), k);
    if file.None? {
      assert Lines(file) == [] && Unterminated(file) == [];
    }
  }

  lemma AppendedLines(file: File, k: Bytes)
    requires Canonical(k)
    ensures Lines(Append(file, k)) == Lines(file) + [Unterminated(file) + k] && Unterminated(Append(file, k)) == []
  {
    var b := Content(file);
    SplitLengthen(b, k);
    SplitConcat(b + k, []);
    assert b + (k + [NEWLINE]) == b + k + [NEWLINE] + [];
  }

  /** What is a line after an append was one of the terminated lines, or is the rest with the key glued to it. */
  lemma HasKeyAfterAppend(trim: Trim, file: File, k: Bytes, other: Bytes)
    requires KeepsKeys(trim) && Canonical(k) && other != []
    ensures HasKey(trim, Append(file, k), other)
            <==> IsLine(trim, Lines(file), other) || trim(Unterminated(file) + k) == other
  {
    AppendedLines(file, k);
    HasKeyByLines(trim, Append(file, k), other);
    IsLineExtend(trim, Lines(file), Unterminated(file) + k, other);
  }

  /** The lines in the file all stay where they are exactly if nothing is appended or the file was terminated. */
  lemma OldLinesKeptExactly(trim: Trim, file: File, call: Call)
    requires Canonical(call.key)
    ensures AllLines(file) <= AllLines(Authorize(trim, file, call))
            <==> !Appends(trim, file, call) || Unterminated(file) == []
  {
    if Appends(trim, file, call) {
      var k := call.key;
      AppendedLines(file, k);
      if Unterminated(file) != [] {
        var n := |Lines(file)|;
        assert AllLines(file)[n] == Unterminated(file);
        assert AllLines(Append(file, k))[n] == Unterminated(file) + k;
      }
    }
  }

  // ---- any sequential run, from a terminated file ----

  ghost function AuthorizeAll(trim: Trim, file: File, calls: seq<Call>): File
    decreases |calls|
  {
    if calls == [] then file else AuthorizeAll(trim, Authorize(trim, file, calls[0]), calls[1..])
  }

  /** The i-th call of the run returns no error. */
  ghost predicate SucceedsAt(trim: Trim, file: File, calls: seq<Call>, i: nat)
    requires i < |calls|
    decreases i
  {
    if i == 0 then Succeeds(trim, file, calls[0])
    else SucceedsAt(trim, Authorize(trim, file, calls[0]), calls[1..], i - 1)
  }

  ghost predicate CanonicalKeys(calls: seq<Call>) {
    forall i | 0 <= i < |calls| :: Canonical(calls[i].key)
  }

  /** What a call adds to the lines of a terminated file. */
  ghost function Addition(trim: Trim, lines: seq<Bytes>, call: Call): seq<Bytes> {
    if call.writable && !(call.readable && IsLine(trim, lines, call.key)) then [call.key] else []
  }

  /** The keys a run adds, in order. */
  ghost function Added(trim: Trim, lines: seq<Bytes>, calls: seq<Call>): seq<Bytes>
    decreases |calls|
  {
    if calls == [] then []
    else var a := Addition(trim, lines, calls[0]); a + Added(trim, lines + a, calls[1..])
  }

  lemma CallAppendsAddition(trim: Trim, file: File, call: Call)
    requires KeepsKeys(trim) && Unterminated(file) == [] && Canonical(call.key)
    ensures var file' := Authorize(trim, file, call);
      Unterminated(file') == [] && Lines(file') == Lines(file) + Addition(trim, Lines(file), call)
    ensures Succeeds(trim, file, call) ==> IsLine(trim, Lines(Authorize(trim, file, call)), call.key)
  {
    var k := call.key;
    HasKeyByLines(trim, file, k);
    if Appends(trim, file, call) {
      AppendedLines(file, k);
      assert [] + k == k;
      IsLineExtend(trim, Lines(file), k, k);
    }
  }

  lemma AddedUnfold(trim: Trim, lines: seq<Bytes>, calls: seq<Call>)
    requires calls != []
    ensures var lines1 := lines + Addition(trim, lines, calls[0]);
      lines + Added(trim, lines, calls) == lines1 + Added(trim, lines1, calls[1..])
  {
    var a := Addition(trim, lines, calls[0]);
    var rest := Added(trim, lines + a, calls[1..]);
    assert lines + (a + rest) == lines + a + rest;
  }

  /** Any run keeps the file terminated and every old line in place, and appends the keys it adds. */
  lemma {:induction false} RunAppendsAdded(trim: Trim, file: File, calls: seq<Call>)
    requires KeepsKeys(trim) && Unterminated(file) == [] && CanonicalKeys(calls)
    ensures var file' := AuthorizeAll(trim, file, calls);
      Unterminated(file') == [] && Lines(file') == Lines(file) + Added(trim, Lines(file), calls)
    decreases |calls|
  {
    if calls == [] {
    } else {
      CallAppendsAddition(trim, file, calls[0]);
      RunAppendsAdded(trim, Authorize(trim, file, calls[0]), calls[1..]);
      AddedUnfold(trim, Lines(file), calls);
    }
  }

  lemma LongerLines(trim: Trim, lines: seq<Bytes>, more: seq<Bytes>, k: Bytes)
    requires IsLine(trim, lines, k)
    ensures IsLine(trim, lines + more, k)
  {
    var i :| 0 <= i < |lines| && trim(lines[i]) == k;
    assert (lines + more)[i] == lines[i];
  }

  /** Whatever other calls do, the key of a call that returned no error is a line in the end. */
  lemma {:induction false} SuccessLasts(trim: Trim, file: File, calls: seq<Call>, i: nat)
    requires KeepsKeys(trim) && Unterminated(file) == [] && CanonicalKeys(calls)
    requires i < |calls| && SucceedsAt(trim, file, calls, i)
    ensures IsLine(trim, Lines(AuthorizeAll(trim, file, calls)), calls[i].key)
    decreases i
  {
    var file1 := Authorize(trim, file, calls[0]);
    CallAppendsAddition(trim, file, calls[0]);
    if i > 0 {
      SuccessLasts(trim, file1, calls[1..], i - 1);
    } else {
      RunAppendsAdded(trim, file1, calls[1..]);
      LongerLines(trim, Lines(file1), Added(trim, Lines(file1), calls[1..]), calls[0].key);
    }
  }

  /** A run adds only keys of its calls. */
  lemma {:induction false} AddedAreKeys(trim: Trim, lines: seq<Bytes>, calls: seq<Call>, x: Bytes)
    requires x in Added(trim, lines, calls)
    ensures exists i :: 0 <= i < |calls| && calls[i].writable && calls[i].key == x
    decreases |calls|
  {
    var a := Addition(trim, lines, calls[0]);
    if x in a {
      assert calls[0].key == x;
    } else {
      AddedAreKeys(trim, lines + a, calls[1..], x);
      var i :| 0 <= i < |calls| - 1 && calls[1..][i].writable && calls[1..][i].key == x;
      assert calls[i + 1].key == x;
    }
  }

  /** An earlier call could write the same key. */
  predicate WrittenBefore(calls: seq<Call>, i: nat)
    requires i < |calls|
  {
    exists j :: 0 <= j < i && calls[j].writable && calls[j].key == calls[i].key
  }

  /** This call cannot read the file but writes a key that is there: a line of old, or the key of an earlier call. */
  ghost predicate WritesBlindlyAt(trim: Trim, lines: seq<Bytes>, calls: seq<Call>, i: nat)
    requires i < |calls|
  {
    calls[i].writable && !calls[i].readable && (IsLine(trim, lines, calls[i].key) || WrittenBefore(calls, i))
  }

  ghost predicate WritesBlindly(trim: Trim, lines: seq<Bytes>, calls: seq<Call>) {
    exists i :: 0 <= i < |calls| && WritesBlindlyAt(trim, lines, calls, i)
  }

  /** None of the keys, added one after the other, was a line before. */
  ghost predicate EachNew(trim: Trim, lines: seq<Bytes>, added: seq<Bytes>)
    decreases |added|
  {
    added == [] || (!IsLine(trim, lines, added[0]) && EachNew(trim, lines + [added[0]], added[1..]))
  }

  lemma WrittenBeforeUnfold(calls: seq<Call>, i: nat)
    requires 0 < i < |calls|
    ensures WrittenBefore(calls, i)
            <==> (calls[0].writable && calls[0].key == calls[i].key) || WrittenBefore(calls[1..], i - 1)
  {
    if WrittenBefore(calls, i) && !(calls[0].writable && calls[0].key == calls[i].key) {
      var j :| 0 <= j < i && calls[j].writable && calls[j].key == calls[i].key;
      assert calls[1..][j - 1] == calls[j];
    }
    if j :| 0 <= j < i - 1 && calls[1..][j].writable && calls[1..][j].key == calls[1..][i - 1].key {
      assert calls[j + 1] == calls[1..][j];
    }
  }

  lemma BlindLater(trim: Trim, lines: seq<Bytes>, calls: seq<Call>, i: nat)
    requires KeepsKeys(trim) && CanonicalKeys(calls) && 0 < i < |calls|
    ensures WritesBlindlyAt(trim, lines, calls, i)
            <==> WritesBlindlyAt(trim, lines + Addition(trim, lines, calls[0]), calls[1..], i - 1)
  {
    var k := calls[0].key;
    WrittenBeforeUnfold(calls, i);
    IsLineExtend(trim, lines, k, calls[i].key);
    if Addition(trim, lines, calls[0]) == [] {
      assert lines + [] == lines;
    }
  }

  lemma BlindUnfold(trim: Trim, lines: seq<Bytes>, calls: seq<Call>)
    requires KeepsKeys(trim) && CanonicalKeys(calls) && calls != []
    ensures WritesBlindly(trim, lines, calls)
            <==> || (calls[0].writable && !calls[0].readable && IsLine(trim, lines, calls[0].key))
                 || WritesBlindly(trim, lines + Addition(trim, lines, calls[0]), calls[1..])
  {
    var lines1 := lines + Addition(trim, lines, calls[0]);
    assert WritesBlindlyAt(trim, lines, calls, 0)
           <==> calls[0].writable && !calls[0].readable && IsLine(trim, lines, calls[0].key);
    if i :| 0 < i < |calls| && WritesBlindlyAt(trim, lines, calls, i) {
      BlindLater(trim, lines, calls, i);
    }
    if i :| 0 <= i < |calls| - 1 && WritesBlindlyAt(trim, lines1, calls[1..], i) {
      BlindLater(trim, lines, calls, i + 1);
    }
  }

  /** A run adds only new keys exactly if it never writes blindly. */
  lemma {:induction false} AddedAreNewExactly(trim: Trim, lines: seq<Bytes>, calls: seq<Call>)
    requires KeepsKeys(trim) && CanonicalKeys(calls)
    ensures EachNew(trim, lines, Added(trim, lines, calls)) <==> !WritesBlindly(trim, lines, calls)
    decreases |calls|
  {
    if calls == [] {
    } else {
      var a := Addition(trim, lines, calls[0]);
      BlindUnfold(trim, lines, calls);
      AddedAreNewExactly(trim, lines + a, calls[1..]);
      if a == [] {
        assert lines + a == lines;
        assert a + Added(trim, lines + a, calls[1..]) == Added(trim, lines, calls[1..]);
      } else {
        assert Added(trim, lines, calls)[1..] == Added(trim, lines + a, calls[1..]);
      }
    }
  }

  /** That is, exactly if no added key is an old line or is added twice. */
  lemma {:induction false} EachNewExactly(trim: Trim, lines: seq<Bytes>, added: seq<Bytes>)
    requires KeepsKeys(trim) && forall i | 0 <= i < |added| :: Canonical(added[i])
    ensures EachNew(trim, lines, added)
            <==> && (forall i | 0 <= i < |added| :: !IsLine(trim, lines, added[i]))
                 && (forall i, j | 0 <= i < j < |added| :: added[i] != added[j])
    decreases |added|
  {
    if added == [] {
    } else {
      var first, rest := added[0], added[1..];
      EachNewExactly(trim, lines + [first], rest);
      forall x ensures IsLine(trim, lines + [first], x) <==> IsLine(trim, lines, x) || x == first {
        IsLineExtend(trim, lines, first, x);
      }
      assert forall i | 1 <= i < |added| :: added[i] == rest[i - 1];
    }
  }
}
