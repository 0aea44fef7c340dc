/** The byte pipeline of an upload and of a download, for every way a reader may
    cut its data into chunks. */
module Streaming {
  import opened Types

  datatype ReadErr = Nil | EOF | Severed | TooLarge | NoProgress | Mismatch

  function Min(a: int, b: int): int {
    if a < b then a else b
  }

  // ---- the raw reader ----------------------------------------------------

  /** A request body or a stored object. Each read delivers any number of the
      remaining bytes, possibly none, and may or may not report the end together
      with the last of them; the end is reported again on every later read. Only
      finitely many reads deliver nothing at all. */
  class Source {
    const data: Bytes
    const severed: bool
    var pos: nat
    var stalls: nat

    ghost predicate Valid() reads this {
      pos <= |data|
    }

    function End(): ReadErr {
      if severed then Severed else EOF
    }

    constructor (data: Bytes, severed: bool, stalls: nat)
      ensures Valid() && this.data == data && this.severed == severed && pos == 0
    {
      this.data, this.severed, this.pos, this.stalls := data, severed, 0, stalls;
    }

    method Read(p: array<byte>, lo: nat, hi: nat) returns (n: nat, err: ReadErr)
      requires Valid() && lo <= hi <= p.Length
      modifies this, p
      ensures Valid() && n <= hi - lo && pos == old(pos) + n
      ensures p[lo..lo + n] == data[old(pos)..pos]
      ensures p[..lo] == old(p[..lo])
      ensures err == Nil || (err == End() && pos == |data|)
      ensures stalls <= old(stalls) && (n == 0 && err == Nil && lo < hi ==> stalls < old(stalls))
    {
      var most: nat := Min(hi - lo, |data| - pos);
      var some: int := *;
      n := if 0 < some <= most || (some == 0 && stalls > 0) then some else most;
      forall i | 0 <= i < n {
        p[lo + i] := data[pos + i];
      }
      pos := pos + n;
      err := Nil;
      var early: bool := *;
      if pos == |data| && (n == 0 || early) {
        err := End();
      } else if n == 0 && lo < hi {
        stalls := stalls - 1;
      }
    }
  }

  // ---- the size cap ------------------------------------------------------

  class LimitReader {
    const r: Source
    const max: nat
    var remaining: int
    var exceeded: bool

    ghost predicate Valid() reads this, r {
      && r.Valid()
      && 0 <= remaining
      && (if exceeded then remaining == 0 && r.pos == max + 1 else r.pos + remaining == max)
    }

    constructor (r: Source, max: nat)
      requires r.Valid() && r.pos == 0
      ensures Valid() && this.r == r && this.max == max && !exceeded
    {
      this.r, this.max, this.remaining, this.exceeded := r, max, max, false;
    }

    // The bytes handed on so far, and all that will ever be.
    ghost function Delivered(): Bytes reads this, r requires Valid() {
      r.data[..Min(r.pos, max)]
    }

    ghost function Total(): Bytes {
      r.data[..Min(|r.data|, max)]
    }

    function End(): ReadErr {
      if |r.data| > max then TooLarge else r.End()
    }

    method Read(p: array<byte>, lo: nat, hi: nat) returns (n: nat, err: ReadErr)
      requires Valid() && lo <= hi <= p.Length
      modifies this, r, p
      ensures Valid() && n <= hi - lo && Delivered() == old(Delivered()) + p[lo..lo + n]
      ensures p[..lo] == old(p[..lo])
      ensures err == Nil || (err == End() && Delivered() == Total())
      ensures err == TooLarge <==> exceeded
      ensures old(exceeded) ==> n == 0 && err == TooLarge
      ensures r.stalls <= old(r.stalls) && (n == 0 && err == Nil && lo < hi ==> r.stalls < old(r.stalls))
    {
      if exceeded {
        return 0, TooLarge;
      }
      if remaining <= 0 {
        var b := new byte[1];
        n, err := r.Read(b, 0, 1);
        if n > 0 {
          exceeded := true;
          return 0, TooLarge;
        }
        return 0, err;
      }
      var top := hi;
      if hi - lo > remaining {
        top := lo + remaining;
      }
      n, err := r.Read(p, lo, top);
      remaining := remaining - n;
    }
  }

  // The handler wraps the body in a limit reader only when a cap is set.
  datatype Input = Raw(body: Source) | Capped(lim: LimitReader) {
    ghost function Objects(): set<object> {
      match this
      case Raw(b) => {b}
      case Capped(l) => {l, l.r}
    }

    ghost predicate Valid() reads Objects() {
      match this
      case Raw(b) => b.Valid()
      case Capped(l) => l.Valid()
    }

    ghost function Delivered(): Bytes reads Objects() requires Valid() {
      match this
      case Raw(b) => b.data[..b.pos]
      case Capped(l) => l.Delivered()
    }

    ghost function Total(): Bytes {
      match this
      case Raw(b) => b.data
      case Capped(l) => l.Total()
    }

    ghost function End(): ReadErr {
      match this
      case Raw(b) => b.End()
      case Capped(l) => l.End()
    }

    // The input has nothing more, and a breach of the cap is on record.
    ghost predicate Ended(err: ReadErr) reads Objects() requires Valid() {
      err == End() && Delivered() == Total() && (err == TooLarge ==> Capped? && lim.exceeded)
    }

    ghost function Stalls(): nat reads Objects() {
      match this
      case Raw(b) => b.stalls
      case Capped(l) => l.r.stalls
    }

    method Read(p: array<byte>, lo: nat, hi: nat) returns (n: nat, err: ReadErr)
      requires Valid() && lo <= hi <= p.Length
      modifies Objects(), p
      ensures Valid() && n <= hi - lo && Delivered() == old(Delivered()) + p[lo..lo + n]
      ensures p[..lo] == old(p[..lo])
      ensures err == Nil || Ended(err)
      ensures Stalls() <= old(Stalls()) && (n == 0 && err == Nil && lo < hi ==> Stalls() < old(Stalls()))
    {
      match this
      case Raw(b) => n, err := b.Read(p, lo, hi);
      case Capped(l) => n, err := l.Read(p, lo, hi);
    }
  }

  // ---- hashing on the way ------------------------------------------------

  class Hasher {
    var written: Bytes

    constructor ()
      ensures written == []
    {
      written := [];
    }

    method Write(b: Bytes)
      modifies this
      ensures written == old(written) + b
    {
      written := written + b;
    }
  }

  // ---- the 512-byte buffer -----------------------------------------------

  const SNIFF_LEN := 512

  /** bufio.Reader over io.TeeReader(input, hasher), with both inlined. */
  class BufReader {
    const rd: Input
    const hasher: Hasher
    const buf: array<byte>
    var r: nat
    var w: nat
    var err: ReadErr
    ghost var out: Bytes

    ghost function Objects(): set<object> {
      rd.Objects() + {this, hasher, buf}
    }

    // Everything hashed so far was consumed or is still in the buffer; a pending
    // error means the input has nothing more.
    ghost predicate Valid() reads Objects() {
      && buf.Length == 512 && buf !in rd.Objects() && hasher !in rd.Objects() && this !in rd.Objects()
      && rd.Valid() && r <= w <= SNIFF_LEN
      && hasher.written == rd.Delivered() && hasher.written == out + buf[r..w]
      && (err == Nil || rd.Ended(err))
    }

    constructor (rd: Input)
      requires rd.Valid() && rd.Delivered() == []
      ensures Valid() && this.rd == rd && out == [] && fresh(hasher) && fresh(buf)
    {
      this.rd := rd;
      this.hasher := new Hasher();
      this.buf := new byte[SNIFF_LEN];
      this.r, this.w, this.err, this.out := 0, 0, Nil, [];
    }

    // Consumed bytes are among those the input will ever deliver.
    lemma OutIsPrefix()
      requires Valid()
      ensures rd.Valid() && out <= hasher.written <= rd.Total()
    {
    }

    // Once everything is consumed, everything is hashed.
    lemma AtEnd()
      requires Valid() && out == rd.Total()
      ensures hasher.written == out
    {
      assert hasher.written == out + buf[r..w];
    }

    // One read through the tee.
    method ReadTee(p: array<byte>, lo: nat, hi: nat) returns (n: nat, e: ReadErr)
      requires rd.Valid() && lo <= hi <= p.Length && p !in rd.Objects() && hasher !in rd.Objects()
      requires this !in rd.Objects()
      modifies rd.Objects(), p, hasher
      ensures rd.Valid() && n <= hi - lo && p[..lo] == old(p[..lo])
      ensures rd.Delivered() == old(rd.Delivered()) + p[lo..lo + n]
      ensures hasher.written == old(hasher.written) + p[lo..lo + n]
      ensures e == Nil || rd.Ended(e)
      ensures rd.Stalls() <= old(rd.Stalls()) && (n == 0 && e == Nil && lo < hi ==> rd.Stalls() < old(rd.Stalls()))
    {
      n, e := rd.Read(p, lo, hi);
      if n > 0 {
        hasher.Write(p[lo..lo + n]);
      }
    }

    // Slide what is buffered to the front.
    method Slide()
      requires Valid()
      modifies this`r, this`w, buf
      ensures Valid() && r == 0 && w == old(w - r)
    {
      ghost var held := buf[r..w];
      if r > 0 {
        forall i | 0 <= i < w - r {
          buf[i] := buf[r + i];
        }
        w := w - r;
        r := 0;
        assert buf[r..w] == held;
      }
    }

    // Read until something comes, at most 100 times.
    method Fill()
      requires Valid() && err == Nil && w - r < SNIFF_LEN
      modifies Objects()
      ensures r <= w <= SNIFF_LEN && out == old(out)
      ensures rd.Valid() && hasher.written == rd.Delivered() && hasher.written == out + buf[r..w]
      ensures w - r >= old(w - r) && rd.Stalls() <= old(rd.Stalls())
      ensures err == Nil ==> w - r > old(w - r)
      ensures err == Nil || rd.Ended(err) || (err == NoProgress && w - r < SNIFF_LEN)
    {
      Slide();
      var tries := 100;
      while tries > 0
        invariant Valid() && r == 0 && w == old(w - r) && err == Nil && out == old(out) && 0 <= tries <= 100
        invariant rd.Stalls() <= old(rd.Stalls())
      {
        var n := ReadOnce();
        if err != Nil || n > 0 {
          return;
        }
        tries := tries - 1;
      }
      err := NoProgress;
    }

    // One read through the tee into the free part of the buffer.
    method ReadOnce() returns (n: nat)
      requires Valid() && err == Nil && r == 0
      modifies Objects()
      ensures Valid() && r == 0 && w == old(w) + n && out == old(out)
      ensures rd.Stalls() <= old(rd.Stalls())
      ensures n == 0 && err == Nil && old(w) < SNIFF_LEN ==> rd.Stalls() < old(rd.Stalls())
    {
      hide Input.Valid, Input.Delivered, Input.Total, Input.End, Input.Ended, Input.Stalls, Input.Objects;
      ghost var before := buf[..w];
      n, err := ReadTee(buf, w, SNIFF_LEN);
      Cut(buf, w, w + n);
      w := w + n;
      assert buf[r..w] == buf[..w];
    }

    lemma Cut(a: array<byte>, i: nat, j: nat)
      requires i <= j <= a.Length
      ensures a[..j] == a[..i] + a[i..j]
    {
    }

    // Look at the next `n` bytes; the error of a short look is dropped.
    method Peek(n: nat) returns (head: Bytes)
      requires Valid() && n == SNIFF_LEN
      modifies Objects()
      ensures Valid() && out == old(out) && rd.Stalls() <= old(rd.Stalls())
      ensures head == buf[r..w] && hasher.written == out + head
    {
      while w - r < n && w - r < SNIFF_LEN && err == Nil
        invariant r <= w <= SNIFF_LEN && out == old(out) && rd.Stalls() <= old(rd.Stalls())
        invariant rd.Valid() && hasher.written == rd.Delivered() && hasher.written == out + buf[r..w]
        invariant err == Nil || rd.Ended(err) || (err == NoProgress && w - r < SNIFF_LEN)
        decreases SNIFF_LEN - (w - r), if err == Nil then 1 else 0
      {
        Fill();
      }
      head := buf[r..w];
      if w - r < n {
        err := Nil;
      }
    }

    // Hand out buffered bytes; an empty buffer is refilled by one read, or
    // bypassed when the caller's slice is at least as large.
    method Read(p: array<byte>, lo: nat, hi: nat) returns (n: nat, e: ReadErr)
      requires Valid() && lo < hi <= p.Length && p !in Objects()
      modifies Objects(), p
      ensures Valid() && n <= hi - lo && p[..lo] == old(p[..lo])
      ensures out == old(out) + p[lo..lo + n]
      ensures e == Nil || (rd.Ended(e) && out == rd.Total())
      ensures rd.Stalls() <= old(rd.Stalls()) && (n == 0 && e == Nil ==> rd.Stalls() < old(rd.Stalls()))
    {
      assert r <= w && rd.Valid();
      hide Valid, Input.Valid, Input.Delivered, Input.Total, Input.End, Input.Ended, Input.Stalls;
      if r == w {
        if err != Nil {
          e := TakeErr();
          return 0, e;
        }
        if hi - lo >= SNIFF_LEN {
          n, e := ReadThrough(p, lo, hi);
          return;
        }
        Rewind();
        n := ReadOnce();
        if n == 0 {
          e := TakeErr();
          return;
        }
      }
      n := TakeBuffered(p, lo, hi);
      e := Nil;
    }

    // Report a pending error once.
    method TakeErr() returns (e: ReadErr)
      requires Valid() && r == w
      modifies this`err
      ensures Valid() && e == old(err) && (e != Nil ==> rd.Ended(e) && out == rd.Total())
    {
      e := err;
      err := Nil;
    }

    method Rewind()
      requires Valid() && r == w
      modifies this`r, this`w
      ensures Valid() && r == w == 0
    {
      r, w := 0, 0;
    }

    // A large read goes past the empty buffer.
    method ReadThrough(p: array<byte>, lo: nat, hi: nat) returns (n: nat, e: ReadErr)
      requires Valid() && r == w && err == Nil && lo < hi <= p.Length && p !in Objects()
      modifies Objects(), p
      ensures Valid() && n <= hi - lo && p[..lo] == old(p[..lo]) && out == old(out) + p[lo..lo + n]
      ensures e == Nil || (rd.Ended(e) && out == rd.Total())
      ensures rd.Stalls() <= old(rd.Stalls()) && (n == 0 && e == Nil ==> rd.Stalls() < old(rd.Stalls()))
    {
      n, e := ReadTee(p, lo, hi);
      out := out + p[lo..lo + n];
    }

    // Copy as much as fits.
    method TakeBuffered(p: array<byte>, lo: nat, hi: nat) returns (n: nat)
      requires Valid() && lo < hi <= p.Length && p !in Objects() && r < w
      modifies this`r, this`out, p
      ensures Valid() && 0 < n <= hi - lo && p[..lo] == old(p[..lo])
      ensures out == old(out) + p[lo..lo + n]
    {
      n := Min(hi - lo, w - r);
      ghost var held := buf[r..w];
      forall i | 0 <= i < n {
        p[lo + i] := buf[r + i];
      }
      assert p[lo..lo + n] == held[..n] && buf[r + n..w] == held[n..];
      r := r + n;
      out := out + p[lo..lo + n];
    }
  }

  // io.ReadAll: what a store does with the reader it is given, in reads of any
  // size.
  method ReadAll(src: BufReader) returns (data: Bytes, e: ReadErr)
    requires src.Valid() && src.out == []
    modifies src.Objects()
    ensures src.Valid() && src.rd.Ended(e) && e != Nil
    ensures data == src.rd.Total() == src.hasher.written
  {
    hide BufReader.Valid, Input.Valid, Input.Delivered, Input.Total, Input.End, Input.Ended, Input.Stalls;
    src.OutIsPrefix();
    data, e := [], Nil;
    while e == Nil
      invariant src.Valid() && src.rd.Valid() && data == src.out
      invariant e == Nil || (src.rd.Ended(e) && src.out == src.rd.Total())
      decreases |src.rd.Total()| - |src.out|, src.rd.Stalls(), if e == Nil then 1 else 0
    {
      src.OutIsPrefix();
      var size: int := *;
      if size < 1 {
        size := 1;
      }
      var p := new byte[size];
      var n;
      n, e := src.Read(p, 0, size);
      data := data + p[0..n];
      src.OutIsPrefix();
    }
    src.AtEnd();
  }

  // A store that fails before it has read everything: any number of reads, and
  // no more than a prefix of the body in hand.
  method ReadSome(src: BufReader) returns (data: Bytes)
    requires src.Valid() && src.out == []
    modifies src.Objects()
    ensures src.Valid() && src.rd.Valid() && data == src.out <= src.rd.Total()
  {
    hide BufReader.Valid, Input.Valid, Input.Delivered, Input.Total, Input.End, Input.Ended, Input.Stalls;
    src.OutIsPrefix();
    data := [];
    var left: int := *;
    while left > 0
      invariant src.Valid() && src.rd.Valid() && data == src.out
    {
      src.OutIsPrefix();
      var size: int := *;
      if size < 1 {
        size := 1;
      }
      var p := new byte[size];
      var n, e := src.Read(p, 0, size);
      data := data + p[0..n];
      src.OutIsPrefix();
      left := left - 1;
    }
    src.OutIsPrefix();
  }

  // The body as `stage` streams it: the buffered tee, an optional look at the
  // head for content-type sniffing, the store's read, the hash of what passed.
  method StreamBody(input: Input, sniff: bool, hash: Bytes -> string) returns (data: Bytes, sum: string, e: ReadErr)
    requires input.Valid() && input.Delivered() == []
    modifies input.Objects()
    ensures input.Valid() && input.Ended(e) && data == input.Total() && sum == hash(data)
  {
    var src := new BufReader(input);
    if sniff {
      var head := src.Peek(SNIFF_LEN);
    }
    data, e := ReadAll(src);
    sum := hash(src.hasher.written);
  }

  // ---- the way back ------------------------------------------------------

  class VerifyingReader {
    const rc: Source
    const h: Hasher
    const want: string
    const hash: Bytes -> string
    var checked: bool

    ghost predicate Valid() reads this, rc, h {
      rc.Valid() && h.written == rc.data[..rc.pos]
    }

    constructor (rc: Source, want: string, hash: Bytes -> string)
      requires rc.Valid() && rc.pos == 0
      ensures Valid() && this.rc == rc && this.want == want && this.hash == hash && !checked && fresh(h)
    {
      this.rc, this.want, this.hash, this.checked := rc, want, hash, false;
      this.h := new Hasher();
    }

    // The first clean end is replaced by a mismatch exactly when the bytes do
    // not hash to the recorded checksum; every later end is clean.
    method Read(p: array<byte>, lo: nat, hi: nat) returns (n: nat, err: ReadErr)
      requires Valid() && lo <= hi <= p.Length
      modifies this, rc, h, p
      ensures Valid() && n <= hi - lo && rc.pos == old(rc.pos) + n && p[lo..lo + n] == rc.data[old(rc.pos)..rc.pos]
      ensures err == Nil || rc.pos == |rc.data|
      ensures err == Nil ==> checked == old(checked)
      ensures err != Nil && rc.severed ==> err == Severed && checked == old(checked)
      ensures err != Nil && !rc.severed ==>
        checked && err == if !old(checked) && hash(rc.data) != want then Mismatch else EOF
      ensures rc.stalls <= old(rc.stalls) && (n == 0 && err == Nil && lo < hi ==> rc.stalls < old(rc.stalls))
    {
      n, err := rc.Read(p, lo, hi);
      if n > 0 {
        h.Write(p[lo..lo + n]);
      }
      assert rc.data[..|rc.data|] == rc.data;
      if err == EOF && !checked {
        checked := true;
        if hash(h.written) != want {
          return n, Mismatch;
        }
      }
    }
  }

  // io.Copy: drains a verifying reader until its first error.
  method Drain(v: VerifyingReader) returns (delivered: Bytes, err: ReadErr)
    requires v.Valid() && v.rc.pos == 0 && !v.checked
    modifies v, v.rc, v.h
    ensures v.Valid() && delivered == v.rc.data && v.rc.pos == |v.rc.data|
    ensures err == if v.rc.severed then Severed else if v.hash(v.rc.data) == v.want then EOF else Mismatch
    ensures v.checked == !v.rc.severed
  {
    delivered, err := [], Nil;
    while err == Nil
      invariant v.Valid() && delivered == v.rc.data[..v.rc.pos]
      invariant err == Nil ==> !v.checked
      invariant err != Nil ==> v.rc.pos == |v.rc.data| && v.checked == !v.rc.severed
      invariant err == Nil ||
        err == if v.rc.severed then Severed else if v.hash(v.rc.data) == v.want then EOF else Mismatch
      decreases |v.rc.data| - v.rc.pos, v.rc.stalls, if err == Nil then 1 else 0
    {
      var size: int := *;
      if size < 1 {
        size := 1;
      }
      var p := new byte[size];
      var n;
      n, err := v.Read(p, 0, size);
      delivered := delivered + p[0..n];
    }
  }

  method DrainPlain(rc: Source) returns (delivered: Bytes, err: ReadErr)
    requires rc.Valid() && rc.pos == 0
    modifies rc
    ensures rc.Valid() && delivered == rc.data && err == rc.End()
  {
    delivered, err := [], Nil;
    while err == Nil
      invariant rc.Valid() && delivered == rc.data[..rc.pos]
      invariant err == Nil || (err == rc.End() && rc.pos == |rc.data|)
      decreases |rc.data| - rc.pos, rc.stalls, if err == Nil then 1 else 0
    {
      var size: int := *;
      if size < 1 {
        size := 1;
      }
      var p := new byte[size];
      var n;
      n, err := rc.Read(p, 0, size);
      delivered := delivered + p[0..n];
    }
  }

  // What an opened file is read through: an object with no recorded checksum is
  // not verified.
  datatype Reader = Plain(rc: Source) | Verifying(v: VerifyingReader) {
    ghost function Objects(): set<object> {
      match this
      case Plain(rc) => {rc}
      case Verifying(v) => {v, v.rc, v.h}
    }

    // Nothing has been read yet.
    ghost predicate Unread() reads Objects() {
      match this
      case Plain(rc) => rc.Valid() && rc.pos == 0
      case Verifying(v) => v.Valid() && v.rc.pos == 0 && !v.checked
    }

    function Data(): Bytes {
      match this
      case Plain(rc) => rc.data
      case Verifying(v) => v.rc.data
    }

    // How a reader that is read to its end ends.
    function Ending(): ReadErr {
      match this
      case Plain(rc) => rc.End()
      case Verifying(v) => if v.rc.severed then Severed else if v.hash(v.rc.data) == v.want then EOF else Mismatch
    }
  }

  method NewVerifyingReader(rc: Source, want: string, hash: Bytes -> string) returns (r: Reader)
    requires rc.Valid() && rc.pos == 0
    ensures r.Unread() && fresh(r.Objects() - {rc}) && r.Data() == rc.data
    ensures r.Ending() == if rc.severed then Severed else if want == "" || hash(rc.data) == want then EOF else Mismatch
  {
    if want == "" {
      return Plain(rc);
    }
    var v := new VerifyingReader(rc, want, hash);
    r := Verifying(v);
  }

  // io.Copy
  method Copy(r: Reader) returns (delivered: Bytes, err: ReadErr)
    requires r.Unread()
    modifies r.Objects()
    ensures delivered == r.Data() && err == r.Ending()
  {
    match r
    case Plain(rc) => delivered, err := DrainPlain(rc);
    case Verifying(v) => delivered, err := Drain(v);
  }

  // A whole download of what a store returns, whatever that is.
  method Download(stored: Source, want: string, hash: Bytes -> string) returns (delivered: Bytes, err: ReadErr)
    requires stored.Valid() && stored.pos == 0
    modifies stored
    ensures delivered == stored.data
    ensures err == if stored.severed then Severed else if want == "" || hash(stored.data) == want then EOF else Mismatch
  {
    var r := NewVerifyingReader(stored, want, hash);
    delivered, err := Copy(r);
  }

  // Whatever bytes the store returns for an uploaded body, reading them ends
  // cleanly exactly if they hash like the body.
  method UploadThenOpen(body: Source, sniff: bool, hash: Bytes -> string, stored: Source)
    returns (delivered: Bytes, err: ReadErr)
    requires body.Valid() && body.pos == 0 && !body.severed && stored.Valid() && stored.pos == 0 && !stored.severed
    requires stored != body && hash(body.data) != ""
    modifies body, stored
    ensures delivered == stored.data && (err == EOF || err == Mismatch)
    ensures err == EOF <==> hash(stored.data) == hash(body.data)
  {
    var data, sum, e := StreamBody(Raw(body), sniff, hash);
    assert body.data[..|body.data|] == body.data;
    delivered, err := Download(stored, sum, hash);
  }
}
