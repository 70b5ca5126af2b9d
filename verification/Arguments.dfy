/**
 Recovering the arguments and the environment of a program being executed:
 the bytes are copied page by page from its stack into a buffer, and the
 buffer is split at the NULs, first into arguments, then into environment
 strings.
 */
module Arguments {
  type Byte = bv8

  const PAGE_SIZE: nat := 4096
  const PATH_MAX: nat := 4096
  const TWO_32: nat := 0x1_0000_0000
  const E2BIG := -7
  const ENOMEM := -12

  // ---------- The copy ----------

  /** A page of the stack, if it can be had. */
  datatype Fetch = NoPage | Page(bytes: seq<Byte>)

  ghost predicate Pages(fetch: nat -> Fetch) {
    forall n :: fetch(n).Page? ==> |fetch(n).bytes| == PAGE_SIZE
  }

  ghost predicate PageAt(fetch: nat -> Fetch, a: nat) { fetch(a / PAGE_SIZE).Page? }

  ghost predicate Mapped(fetch: nat -> Fetch, p: nat, len: nat) {
    forall a :: p <= a < p + len ==> PageAt(fetch, a)
  }

  /** The byte at a flat address. */
  ghost function ByteAt(fetch: nat -> Fetch, a: nat): Byte
    requires Pages(fetch) && PageAt(fetch, a)
  {
    fetch(a / PAGE_SIZE).bytes[a % PAGE_SIZE]
  }

  /** The bytes of a flat range. */
  ghost function Range(fetch: nat -> Fetch, p: nat, len: nat): (r: seq<Byte>)
    requires Pages(fetch) && Mapped(fetch, p, len)
    ensures |r| == len && forall i :: 0 <= i < len ==> r[i] == ByteAt(fetch, p + i)
  {
    seq(len, i requires 0 <= i < len => ByteAt(fetch, p + i))
  }

  /** How much one round copies; the minimum is taken over 32-bit numbers. */
  function Chunk(len: nat, ofs: nat): (n: nat)
    requires ofs < PAGE_SIZE
    ensures n <= len && n <= PAGE_SIZE - ofs
  {
    if len % TWO_32 < PAGE_SIZE - ofs then len % TWO_32 else PAGE_SIZE - ofs
  }

  /** A count as the C int it is returned in. */
  function ToInt(n: nat): int {
    var m := n % TWO_32;
    if m < 0x8000_0000 then m else m - TWO_32
  }

  lemma SamePage(src: nat, k: nat)
    requires src % PAGE_SIZE + k < PAGE_SIZE
    ensures (src + k) / PAGE_SIZE == src / PAGE_SIZE && (src + k) % PAGE_SIZE == src % PAGE_SIZE + k
  {
  }

  lemma NextPage(src: nat)
    ensures (src + (PAGE_SIZE - src % PAGE_SIZE)) % PAGE_SIZE == 0
  {
  }

  /** One page's worth more. */
  lemma RangeGrows(fetch: nat -> Fetch, p: nat, len: nat, n: nat)
    requires Pages(fetch) && Mapped(fetch, p, len) && fetch((p + len) / PAGE_SIZE).Page?
    requires (p + len) % PAGE_SIZE + n <= PAGE_SIZE
    ensures Mapped(fetch, p, len + n)
    ensures var ofs, bytes := (p + len) % PAGE_SIZE, fetch((p + len) / PAGE_SIZE).bytes;
            Range(fetch, p, len + n) == Range(fetch, p, len) + bytes[ofs..ofs + n]
  {
    forall a | p <= a < p + len + n ensures PageAt(fetch, a) {
      if a >= p + len { SamePage(p + len, a - p - len); }
    }
    var ofs, bytes := (p + len) % PAGE_SIZE, fetch((p + len) / PAGE_SIZE).bytes;
    var before, after := Range(fetch, p, len), Range(fetch, p, len + n);
    forall i | len <= i < len + n ensures after[i] == bytes[ofs..ofs + n][i - len] {
      SamePage(p + len, i - len);
      assert p + i == p + len + (i - len);
    }
    assert after == before + bytes[ofs..ofs + n];
  }

  method Memcpy(buff: array<Byte>, at: nat, bytes: seq<Byte>)
    requires at + |bytes| <= buff.Length
    modifies buff
    ensures buff[..at + |bytes|] == old(buff[..at]) + bytes
  {
    forall k | 0 <= k < |bytes| {
      buff[at + k] := bytes[k];
    }
    assert forall i :: at <= i < at + |bytes| ==> buff[i] == buff[at + (i - at)];
  }

  /** The copy stops of itself: it is short enough, or it meets a page that cannot be had. */
  ghost predicate Stops(fetch: nat -> Fetch, src: nat, len: nat) {
    len < TWO_32 || !Mapped(fetch, src, len % TWO_32 + 1)
  }

  /** After a round that copied `n` bytes from a page that could be had. */
  lemma StillStops(fetch: nat -> Fetch, src: nat, ofs: nat, len: nat)
    requires ofs < PAGE_SIZE && len > 0 && Stops(fetch, src, len) && PageAt(fetch, src)
    requires len % TWO_32 > 0 ==> ofs == src % PAGE_SIZE
    ensures var n := Chunk(len, ofs);
            && 0 < n && ofs == src % PAGE_SIZE && Stops(fetch, src + n, len - n)
            && ((len - n) % TWO_32 > 0 ==> (src + n) % PAGE_SIZE == 0)
  {
    var n := Chunk(len, ofs);
    assert len >= TWO_32 && len % TWO_32 == 0 ==> Mapped(fetch, src, 1);
    ChunkLeft(len, ofs);
    NextPage(src);
    if len >= TWO_32 {
      OnePage(fetch, src, n);
      MappedJoin(fetch, src, n, len % TWO_32 - n + 1);
    }
  }

  lemma ChunkLeft(len: nat, ofs: nat)
    requires ofs < PAGE_SIZE
    ensures var n := Chunk(len, ofs);
            && n <= len % TWO_32 && (len - n) % TWO_32 == len % TWO_32 - n && (n == 0 <==> len % TWO_32 == 0)
            && ((len - n) % TWO_32 > 0 ==> n == PAGE_SIZE - ofs)
            && (TWO_32 <= len <==> TWO_32 <= len - n)
  {
    var n, q := Chunk(len, ofs), len / TWO_32;
    assert len - n == q * TWO_32 + (len % TWO_32 - n);
  }

  lemma OnePage(fetch: nat -> Fetch, src: nat, n: nat)
    requires PageAt(fetch, src) && src % PAGE_SIZE + n <= PAGE_SIZE
    ensures Mapped(fetch, src, n)
  {
    forall a | src <= a < src + n ensures PageAt(fetch, a) { SamePage(src, a - src); }
  }

  lemma MappedJoin(fetch: nat -> Fetch, src: nat, n: nat, more: nat)
    requires Mapped(fetch, src, n)
    ensures Mapped(fetch, src + n, more) <==> Mapped(fetch, src, n + more)
  {
  }

  method CopyArgv(p: nat, fetch: nat -> Fetch, buff: array<Byte>) returns (rv: int)
    requires Pages(fetch) && Stops(fetch, p, buff.Length)
    modifies buff
    ensures Mapped(fetch, p, buff.Length) ==> rv == ToInt(buff.Length) && buff[..] == Range(fetch, p, buff.Length)
    ensures !Mapped(fetch, p, buff.Length) ==> rv == E2BIG
  {
    var len, src, at := buff.Length, p, 0;
    var ofs := src % PAGE_SIZE;
    while len > 0
      invariant 0 <= at && 0 <= len && at + len == buff.Length && src == p + at && ofs < PAGE_SIZE
      invariant Stops(fetch, src, len) && (len % TWO_32 > 0 ==> ofs == src % PAGE_SIZE)
      invariant Mapped(fetch, p, at) && buff[..at] == Range(fetch, p, at)
      decreases len
    {
      var page := fetch(src / PAGE_SIZE);
      if page.NoPage? {
        assert !PageAt(fetch, p + at);
        return E2BIG;
      }
      var bytes := Chunk(len, ofs);
      StillStops(fetch, src, ofs, len);
      RangeGrows(fetch, p, at, bytes);
      Memcpy(buff, at, page.bytes[ofs..ofs + bytes]);
      src, at, len, ofs := src + bytes, at + bytes, len - bytes, 0;
    }
    assert buff[..at] == buff[..];
    return ToInt(src - p);
  }

  // ---------- When the copy ends ----------

  /** How the loop stands: through, given up for want of a page, or still at it. */
  datatype Progress = Done | Failed | Going

  /** The loop after some rounds, from address `src` and `ofs` into its page. */
  function Loop(fetch: nat -> Fetch, src: nat, ofs: nat, len: nat, rounds: nat): Progress
    requires ofs < PAGE_SIZE
    decreases rounds
  {
    if len == 0 then Done
    else if rounds == 0 then Going
    else if fetch(src / PAGE_SIZE).NoPage? then Failed
    else
      var n := Chunk(len, ofs);
      Loop(fetch, src + n, 0, len - n, rounds - 1)
  }

  lemma {:induction false} Ends(fetch: nat -> Fetch, src: nat, ofs: nat, len: nat) returns (rounds: nat)
    requires ofs < PAGE_SIZE && Stops(fetch, src, len) && (len % TWO_32 > 0 ==> ofs == src % PAGE_SIZE)
    ensures Loop(fetch, src, ofs, len, rounds) != Going
    decreases len
  {
    if len == 0 {
      rounds := 0;
    } else if fetch(src / PAGE_SIZE).NoPage? {
      rounds := 1;
    } else {
      var n := Chunk(len, ofs);
      StillStops(fetch, src, ofs, len);
      var more := Ends(fetch, src + n, 0, len - n);
      rounds := more + 1;
    }
  }

  lemma {:induction false} NeverEnds(fetch: nat -> Fetch, src: nat, ofs: nat, len: nat, rounds: nat)
    requires ofs < PAGE_SIZE && !Stops(fetch, src, len) && (len % TWO_32 > 0 ==> ofs == src % PAGE_SIZE)
    ensures Loop(fetch, src, ofs, len, rounds) == Going
    decreases rounds
  {
    if rounds > 0 {
      var n := Chunk(len, ofs);
      ChunkLeft(len, ofs);
      NextPage(src);
      assert PageAt(fetch, src);
      NeverEnds(fetch, src + n, 0, len - n, rounds - 1);
    }
  }

  /**
   The copy comes to an end exactly when its length is below 2^32 or a page
   that it needs on the way to a whole multiple of 2^32 cannot be had.
   */
  lemma CopyEnds(fetch: nat -> Fetch, p: nat, len: nat)
    ensures (exists rounds: nat :: Loop(fetch, p, p % PAGE_SIZE, len, rounds) != Going)
            <==> len < TWO_32 || !Mapped(fetch, p, len % TWO_32 + 1)
  {
    if Stops(fetch, p, len) {
      var rounds := Ends(fetch, p, p % PAGE_SIZE, len);
    } else {
      forall rounds: nat ensures Loop(fetch, p, p % PAGE_SIZE, len, rounds) == Going {
        NeverEnds(fetch, p, p % PAGE_SIZE, len, rounds);
      }
    }
  }

  function ZeroPage(n: nat): Fetch { Page(seq(PAGE_SIZE, _ => 0)) }

  /** A stack with every page there, and 2^32 bytes to copy: the loop copies nothing for ever. */
  lemma LongCopyLoops(rounds: nat)
    ensures Loop(ZeroPage, 0, 0, TWO_32, rounds) == Going
  {
    NeverEnds(ZeroPage, 0, 0, TWO_32, rounds);
  }

  // ---------- The split ----------

  /** The strings one after the other, each with its NUL. */
  function Encode(strings: seq<seq<Byte>>): seq<Byte>
    decreases |strings|
  {
    if strings == [] then [] else Encode(strings[..|strings| - 1]) + strings[|strings| - 1] + [0]
  }

  lemma EncodeSnoc(strings: seq<seq<Byte>>, s: seq<Byte>)
    ensures Encode(strings + [s]) == Encode(strings) + s + [0]
  {
    assert (strings + [s])[..|strings|] == strings;
  }

  ghost predicate NulFree(strings: seq<seq<Byte>>) {
    forall i :: 0 <= i < |strings| ==> 0 !in strings[i]
  }

  ghost function Nuls(buf: seq<Byte>): nat {
    if buf == [] then 0 else Nuls(buf[..|buf| - 1]) + if buf[|buf| - 1] == 0 then 1 else 0
  }

  lemma {:induction false} NulsConcat(a: seq<Byte>, b: seq<Byte>)
    ensures Nuls(a + b) == Nuls(a) + Nuls(b)
    decreases |b|
  {
    if b == [] {
      assert a + b == a;
    } else {
      assert (a + b)[..|a + b| - 1] == a + b[..|b| - 1];
      NulsConcat(a, b[..|b| - 1]);
    }
  }

  lemma NulsSplit(buf: seq<Byte>, at: nat, end: nat)
    requires at <= end <= |buf|
    ensures Nuls(buf[at..]) == Nuls(buf[at..end]) + Nuls(buf[end..])
  {
    assert buf[at..] == buf[at..end] + buf[end..];
    NulsConcat(buf[at..end], buf[end..]);
  }

  lemma {:induction false} NoNuls(s: seq<Byte>)
    requires 0 !in s
    ensures Nuls(s) == 0
    decreases |s|
  {
    if s != [] { NoNuls(s[..|s| - 1]); }
  }

  lemma {:induction false} EncodeNuls(strings: seq<seq<Byte>>)
    requires NulFree(strings)
    ensures Nuls(Encode(strings)) == |strings|
    decreases |strings|
  {
    if strings != [] {
      var init, last := strings[..|strings| - 1], strings[|strings| - 1];
      EncodeNuls(init);
      NoNuls(last);
      NulsConcat(Encode(init) + last, [0]);
      NulsConcat(Encode(init), last);
      assert Nuls([0]) == 1;
    }
  }

  /** A buffer has one reading only: equal encodings, even with something after them, are of equal strings. */
  lemma {:induction false} DecodeUnique(a: seq<seq<Byte>>, r: seq<Byte>, b: seq<seq<Byte>>, r': seq<Byte>)
    requires NulFree(a) && NulFree(b) && |a| == |b| && Encode(a) + r == Encode(b) + r'
    ensures a == b && r == r'
    decreases |a|
  {
    if a == [] {
      assert Encode(a) + r == r && Encode(b) + r' == r';
    } else {
      var ia, la, ib, lb := a[..|a| - 1], a[|a| - 1], b[..|b| - 1], b[|b| - 1];
      assert a == ia + [la] && b == ib + [lb];
      assert Encode(a) + r == Encode(ia) + (la + [0] + r);
      assert Encode(b) + r' == Encode(ib) + (lb + [0] + r');
      DecodeUnique(ia, la + [0] + r, ib, lb + [0] + r');
      FirstNulUnique(la, r, lb, r');
    }
  }

  lemma FirstNulUnique(s: seq<Byte>, r: seq<Byte>, s': seq<Byte>, r': seq<Byte>)
    requires 0 !in s && 0 !in s' && s + [0] + r == s' + [0] + r'
    ensures s == s' && r == r'
  {
    var t := s + [0] + r;
    assert t[|s|] == 0 && t[|s'|] == 0;
    assert forall i :: 0 <= i < |s| ==> t[i] == s[i] && s[i] in s;
    assert forall i :: 0 <= i < |s'| ==> t[i] == s'[i] && s'[i] in s';
    assert |s| == |s'|;
    assert s == t[..|s|] && s' == t[..|s'|];
    assert r == t[|s| + 1..] && r' == t[|s'| + 1..];
  }

  /**
   The length of the string at `at`. `ok` is false when no NUL ends it inside
   the buffer, so that reading it would leave the buffer.
   */
  method Measure(buf: seq<Byte>, at: nat) returns (ok: bool, size: nat)
    requires at <= |buf|
    ensures ok ==> at + size < |buf| && buf[at + size] == 0 && 0 !in buf[at..at + size]
    ensures !ok ==> 0 !in buf[at..]
  {
    size := 0;
    while at + size < |buf|
      invariant at + size <= |buf| && 0 !in buf[at..at + size]
    {
      if buf[at + size] == 0 {
        return true, size;
      }
      size := size + 1;
    }
    return false, size;
  }

  /** Cuts `count` strings off the buffer, starting at `at`. */
  method CutStrings(buf: seq<Byte>, at: nat, count: nat) returns (ok: bool, strings: seq<seq<Byte>>, end: nat)
    requires at <= |buf|
    ensures ok ==> |strings| == count && NulFree(strings) && at <= end <= |buf| && buf[at..end] == Encode(strings)
    ensures !ok ==> Nuls(buf[at..]) < count
  {
    strings, end := [], at;
    var n := count;
    while n > 0
      invariant 0 <= n <= count && |strings| == count - n && NulFree(strings)
      invariant at <= end <= |buf| && buf[at..end] == Encode(strings)
    {
      var size;
      ok, size := Measure(buf, end);
      if !ok {
        EncodeNuls(strings);
        NoNuls(buf[end..]);
        NulsSplit(buf, at, end);
        return;
      }
      var s := buf[end..end + size];
      assert buf[at..end + size + 1] == buf[at..end] + s + [0];
      EncodeSnoc(strings, s);
      strings := strings + [s];
      end := end + size + 1;
      n := n - 1;
    }
    ok := true;
  }

  lemma SplitWhole(buf: seq<Byte>, at: nat, end: nat, a: seq<Byte>, b: seq<Byte>)
    requires at <= end <= |buf| && buf[..at] == a && buf[at..end] == b
    ensures buf == a + b + buf[end..]
  {
    assert buf == buf[..at] + buf[at..end] + buf[end..];
  }

  /** The two loops: arguments, then environment. `rest` is what is left over. */
  method Split(buf: seq<Byte>, argc: nat, envc: nat)
    returns (ok: bool, args: seq<seq<Byte>>, envs: seq<seq<Byte>>, ghost rest: seq<Byte>)
    ensures ok <==> argc + envc <= Nuls(buf)
    ensures ok ==> |args| == argc && |envs| == envc && NulFree(args) && NulFree(envs)
    ensures ok ==> buf == Encode(args) + Encode(envs) + rest
  {
    var at, end;
    ok, args, at := CutStrings(buf, 0, argc);
    envs, rest := [], [];
    assert buf[0..] == buf;
    if !ok {
      return;
    }
    ok, envs, end := CutStrings(buf, at, envc);
    EncodeNuls(args);
    NulsSplit(buf, 0, at);
    if !ok {
      return;
    }
    EncodeNuls(envs);
    NulsSplit(buf, at, end);
    rest := buf[end..];
    SplitWhole(buf, at, end, Encode(args), Encode(envs));
  }

  lemma DecodeWhole(a: seq<seq<Byte>>, b: seq<seq<Byte>>, rest: seq<Byte>)
    requires NulFree(a) && NulFree(b) && |a| == |b| && Encode(a) == Encode(b) + rest
    ensures a == b && rest == []
  {
    assert Encode(a) + [] == Encode(a);
    DecodeUnique(a, [], b, rest);
  }

  lemma Regroup(a: seq<Byte>, b: seq<Byte>, c: seq<Byte>)
    ensures a + b + c == a + (b + c)
  {
  }

  /** Whatever is cut off a well-formed buffer is what was put in. */
  lemma SplitInvertsEncode(
    a: seq<seq<Byte>>, e: seq<seq<Byte>>, args: seq<seq<Byte>>, envs: seq<seq<Byte>>, rest: seq<Byte>)
    requires NulFree(a) && NulFree(e) && NulFree(args) && NulFree(envs) && |args| == |a| && |envs| == |e|
    requires Encode(a) + Encode(e) == Encode(args) + Encode(envs) + rest
    ensures args == a && envs == e && rest == []
  {
    Regroup(Encode(args), Encode(envs), rest);
    DecodeUnique(a, Encode(e), args, Encode(envs) + rest);
    DecodeWhole(e, envs, rest);
  }

  lemma EncodedNuls(a: seq<seq<Byte>>, e: seq<seq<Byte>>)
    requires NulFree(a) && NulFree(e)
    ensures Nuls(Encode(a) + Encode(e)) == |a| + |e|
  {
    EncodeNuls(a);
    EncodeNuls(e);
    NulsConcat(Encode(a), Encode(e));
  }

  // ---------- Recording ----------

  /** What is kept of one string. */
  datatype ArgInfo = ArgInfo(value: seq<Byte>, length: nat, truncated: bool)

  function Recorded(arg: seq<Byte>): ArgInfo {
    ArgInfo(if |arg| < PATH_MAX - 2 then arg else arg[..PATH_MAX - 2], |arg|, PATH_MAX <= |arg|)
  }

  /**
   The value kept is the whole string exactly when it is shorter than PATH_MAX
   by two or more, while a string counts as truncated from PATH_MAX on: one of
   PATH_MAX - 1 bytes loses its last byte without a mark, and no other does.
   */
  lemma UnmarkedTruncation(arg: seq<Byte>)
    ensures Recorded(arg).value == arg <==> |arg| <= PATH_MAX - 2
    ensures Recorded(arg).value != arg && !Recorded(arg).truncated <==> |arg| == PATH_MAX - 1
    ensures Recorded(arg).value <= arg
    ensures |Recorded(arg).value| == if |arg| <= PATH_MAX - 2 then |arg| else PATH_MAX - 2
    ensures Recorded(arg).length == |arg| && (Recorded(arg).truncated <==> PATH_MAX <= |arg|)
  {
    if |arg| > PATH_MAX - 2 { assert |Recorded(arg).value| == PATH_MAX - 2; }
  }

  function RecordedAll(strings: seq<seq<Byte>>): (r: seq<ArgInfo>)
    ensures |r| == |strings| && forall i :: 0 <= i < |r| ==> r[i] == Recorded(strings[i])
  {
    seq(|strings|, i requires 0 <= i < |strings| => Recorded(strings[i]))
  }

  /** The buffer is the encoding of these arguments and environment strings. */
  ghost predicate Encodes(a: seq<seq<Byte>>, argc: nat, e: seq<seq<Byte>>, envc: nat, buf: seq<Byte>) {
    NulFree(a) && NulFree(e) && |a| == argc && |e| == envc && buf == Encode(a) + Encode(e)
  }

  /**
   Copies the strings of a program, splits them and keeps them; `ok` is false when splitting would
   leave the buffer.
   */
  method RecoverArgs(p: nat, len: nat, fetch: nat -> Fetch, argc: nat, envc: nat)
    returns (rc: int, ok: bool, args: seq<ArgInfo>, envs: seq<ArgInfo>)
    requires Pages(fetch) && Stops(fetch, p, len)
    ensures rc == 0 <==> Mapped(fetch, p, len) && len < 0x8000_0000
    ensures rc != 0 ==> rc == ENOMEM && args == envs == []
    ensures rc == 0 ==> (ok <==> argc + envc <= Nuls(Range(fetch, p, len)))
    ensures rc == 0 ==> forall a, e :: Encodes(a, argc, e, envc, Range(fetch, p, len)) ==>
                          ok && args == RecordedAll(a) && envs == RecordedAll(e)
  {
    var argv := new Byte[len];
    var copied := CopyArgv(p, fetch, argv);
    if copied < 0 {
      return ENOMEM, false, [], [];
    }
    var a', e';
    ghost var rest;
    ok, a', e', rest := Split(argv[..], argc, envc);
    rc, args, envs := 0, RecordedAll(a'), RecordedAll(e');
    forall a, e | Encodes(a, argc, e, envc, Range(fetch, p, len))
      ensures ok && args == RecordedAll(a) && envs == RecordedAll(e)
    {
      EncodedNuls(a, e);
      SplitInvertsEncode(a, e, a', e', rest);
    }
  }
}
