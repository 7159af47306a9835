/**
 The reqid and inner-address allocators of pep/main.go: two 32-bit counters that start past the restored
 sessions, and the address pool cut from an IPv4 prefix.
 */
module Allocator {
  import opened Wrappers
  import opened Protocol

  const WORD: nat := 0x1_0000_0000

  function Pow2(n: nat): (r: nat)
    ensures r > 0
  {
    if n == 0 then 1 else 2 * Pow2(n - 1)
  }

  // ---------- the address pool ----------

  /** A parsed IPv4 prefix; `None` in its place is one that does not parse or is not IPv4. */
  datatype Prefix = Prefix(addr: nat, bits: nat)

  predicate WellFormedPrefix(x: Prefix) {
    x.addr < WORD && x.bits <= 32
  }

  function PoolSize(x: Prefix): nat
    requires x.bits <= 32
  {
    Pow2(32 - x.bits)
  }

  /** The address with its host bits cleared. */
  function Masked(addr: nat, size: nat): nat
    requires size > 0
  {
    addr - addr % size
  }

  function Network(x: Prefix): nat
    requires x.bits <= 32
  {
    Masked(x.addr, PoolSize(x))
  }

  function Broadcast(x: Prefix): nat
    requires x.bits <= 32
  {
    Network(x) + PoolSize(x) - 1
  }

  datatype PoolError = InvalidPrefix | NoPool | Exhausted | Outside

  function ClientInnerIPFromOffset(cidr: Option<Prefix>, offset: nat): Result<nat, PoolError>
    requires cidr.Some? ==> WellFormedPrefix(cidr.value)
  {
    if cidr.None? then Failure(InvalidPrefix)
    else if 32 - cidr.value.bits < 2 then Failure(NoPool)
    else if offset == 0 || offset > PoolSize(cidr.value) - 2 then Failure(Exhausted)
    else Success((Network(cidr.value) + offset) % WORD)
  }

  function ClientInnerIPOffset(cidr: Option<Prefix>, address: Option<nat>): Result<nat, PoolError>
    requires cidr.Some? ==> WellFormedPrefix(cidr.value)
  {
    if cidr.None? then Failure(InvalidPrefix)
    else if address.None? || Masked(address.value, PoolSize(cidr.value)) != Network(cidr.value) then Failure(Outside)
    else Success((address.value - Network(cidr.value)) % WORD)
  }

  lemma ModOfSum(q: nat, size: nat, r: nat)
    requires r < size
    ensures (q * size + r) % size == r
  {
    var n := q * size + r;
    var q', r' := n / size, n % size;
    assert n == q' * size + r';
    MulMonotone(q, q', size);
    MulMonotone(q', q, size);
    MulMonotone(q + 1, q', size);
    MulMonotone(q' + 1, q, size);
  }

  lemma MulMonotone(a: nat, b: nat, size: nat)
    ensures a <= b ==> a * size <= b * size
    ensures (a + 1) * size == a * size + size
  {
    if a <= b {
      assert b * size == a * size + (b - a) * size;
    }
  }

  /** Adding a number leaves the residue as it is exactly if the number is a multiple. */
  lemma SameResidue(x: nat, d: nat, size: nat)
    requires size > 0
    ensures (x + d) % size == x % size <==> d % size == 0
  {
    var q, r, q', r' := x / size, x % size, d / size, d % size;
    assert (q + q') * size == q * size + q' * size;
    assert x + d == (q + q') * size + (r + r');
    if r + r' < size {
      ModOfSum(q + q', size, r + r');
    } else {
      assert (q + q' + 1) * size == (q + q') * size + size;
      ModOfSum(q + q' + 1, size, r + r' - size);
    }
  }

  lemma {:induction false} Pow2Adds(a: nat, b: nat)
    ensures Pow2(a + b) == Pow2(a) * Pow2(b)
  {
    if a > 0 {
      Pow2Adds(a - 1, b);
    }
  }

  /** The block a prefix denotes lies within the 32-bit space. */
  lemma BlockFits(x: Prefix)
    requires WellFormedPrefix(x)
    ensures Network(x) % PoolSize(x) == 0
    ensures Network(x) + PoolSize(x) <= WORD
  {
    var size, blocks := PoolSize(x), Pow2(x.bits);
    Pow2Adds(x.bits, 32 - x.bits);
    WordIsPow2();
    MaskedFits(x.addr, size, blocks);
  }

  lemma WordIsPow2()
    ensures Pow2(32) == WORD
  {
    assert Pow2(8) == 256;
    Pow2Adds(8, 8);
    Pow2Adds(16, 16);
  }

  lemma MaskedFits(addr: nat, size: nat, blocks: nat)
    requires size > 0 && addr < blocks * size
    ensures Masked(addr, size) % size == 0 && Masked(addr, size) + size <= blocks * size
  {
    var q := addr / size;
    assert Masked(addr, size) == q * size;
    ModOfSum(q, size, 0);
    MulMonotone(blocks, q, size);
    MulMonotone(q, q, size);
    MulMonotone(q + 1, blocks, size);
  }

  /** An address belongs to the block of a prefix exactly if it is between network and broadcast address. */
  lemma InBlock(x: Prefix, addr: nat)
    requires WellFormedPrefix(x)
    ensures Masked(addr, PoolSize(x)) == Network(x) <==> Network(x) <= addr <= Broadcast(x)
  {
    hide Pow2;
    SameBlock(x.addr, addr, PoolSize(x));
  }

  lemma SameBlock(a: nat, b: nat, size: nat)
    requires size > 0
    ensures Masked(b, size) == Masked(a, size) <==> Masked(a, size) <= b < Masked(a, size) + size
  {
    if Masked(a, size) <= b < Masked(a, size) + size {
      var q := a / size;
      assert Masked(a, size) == q * size;
      ModOfSum(q, size, b - Masked(a, size));
    }
  }

  /**
   Every offset the pool accepts names an address strictly between network and broadcast, without wrapping,
   and is read back from it; every such address has an offset; and no other offset is accepted.
   */
  lemma PoolIsExact(x: Prefix, offset: nat)
    requires WellFormedPrefix(x)
    ensures var r := ClientInnerIPFromOffset(Some(x), offset);
      && (r.Success? <==> x.bits <= 30 && 0 < offset <= PoolSize(x) - 2)
      && (r.Success? ==>
            && r.value == Network(x) + offset < WORD
            && Network(x) < r.value < Broadcast(x)
            && ClientInnerIPOffset(Some(x), Some(r.value)) == Success(offset))
  {
    hide Pow2, Masked;
    BlockFits(x);
    InBlock(x, Network(x) + offset);
    SmallPool(x);
    if 0 < offset < PoolSize(x) {
      SmallResidue(Network(x) + offset);
      SmallResidue(offset);
    }
  }

  lemma AddressHasOffset(x: Prefix, addr: nat)
    requires WellFormedPrefix(x) && x.bits <= 30 && Network(x) < addr < Broadcast(x)
    ensures var r := ClientInnerIPOffset(Some(x), Some(addr));
      r.Success? && ClientInnerIPFromOffset(Some(x), r.value) == Success(addr)
  {
    hide Pow2, Masked;
    BlockFits(x);
    InBlock(x, addr);
    SmallResidue(addr);
    SmallResidue(addr - Network(x));
  }

  // ---------- the counters ----------

  /** atomic.AddUint32. */
  function Next(counter: nat): nat {
    (counter + 1) % WORD
  }

  /** What the n-th allocation after `start` hands out. */
  function Issued(start: nat, n: nat): nat {
    if n == 0 then start else Next(Issued(start, n - 1))
  }

  /** The counter has gone round a whole number of times. */
  predicate WholeTurns(n: nat) {
    n % WORD == 0
  }

  lemma TurnsOfAWord(n: nat)
    ensures 0 < n < WORD ==> !WholeTurns(n)
    ensures WholeTurns(WORD)
  {
  }

  lemma {:induction false} IssuedIs(start: nat, n: nat)
    requires start < WORD
    ensures Issued(start, n) == (start + n) % WORD
  {
    if n == 0 {
      SmallResidue(start);
    } else {
      IssuedIs(start, n - 1);
      NextResidue(start + n - 1);
    }
  }

  lemma SmallResidue(n: nat)
    requires n < WORD
    ensures n % WORD == n
  {
  }

  lemma NextResidue(n: nat)
    ensures Next(n % WORD) == (n + 1) % WORD
  {
    var q, r := n / WORD, n % WORD;
    if r + 1 < WORD {
      ModOfSum(q, WORD, r + 1);
    } else {
      ModOfSum(q + 1, WORD, 0);
    }
  }

  /** Two allocations hand out the same number exactly if they are a multiple of 2^32 apart. */
  lemma IssuedRepeats(start: nat, i: nat, j: nat)
    requires start < WORD && i <= j
    ensures Issued(start, i) == Issued(start, j) <==> WholeTurns(j - i)
  {
    hide Issued;
    IssuedIs(start, i);
    IssuedIs(start, j);
    SameResidue(start + i, j - i, WORD);
  }

  /**
   A number at or below the start is handed out again exactly at one allocation in every 2^32; the first time
   2^32 less its distance from the start.
   */
  lemma IssuedReturns(start: nat, earlier: nat, n: nat)
    requires earlier <= start < WORD
    ensures Issued(start, n) == earlier <==> WholeTurns(n + (start - earlier))
    ensures 0 < n < WORD - (start - earlier) ==> Issued(start, n) != earlier
    ensures Issued(start, WORD - (start - earlier)) == earlier
  {
    hide WholeTurns;
    IssuedReturn(start, earlier, n);
    IssuedReturn(start, earlier, WORD - (start - earlier));
    TurnsOfAWord(n + (start - earlier));
  }

  lemma IssuedReturn(start: nat, earlier: nat, n: nat)
    requires earlier <= start < WORD
    ensures Issued(start, n) == earlier <==> WholeTurns(n + (start - earlier))
  {
    hide Issued;
    IssuedIs(start, n);
    SameResidue(earlier, n + (start - earlier), WORD);
    SmallResidue(earlier);
  }

  // ---------- the allocators ----------

  /** Parsing and printing of dotted addresses. */
  datatype Addressing = Addressing(parse: string -> Option<nat>, format: nat -> string)

  ghost predicate Printable(a: Addressing) {
    forall n: nat :: n < WORD ==> a.parse(a.format(n)) == Some(n)
  }

  /** An environment setting that must parse as a positive 32-bit number. */
  function Setting(configured: Option<nat>, fallback: nat): nat {
    if configured.None? || configured.value >= WORD || configured.value == 0 then fallback else configured.value
  }

  const REQID_BASE := 1000
  const INNER_START := 10

  class Allocators {
    const addressing: Addressing
    const cidr: Option<Prefix>
    var nextReqID: nat
    var nextClientInnerID: nat

    ghost predicate Valid()
      reads this
    {
      nextReqID < WORD && nextClientInnerID < WORD && (cidr.Some? ==> WellFormedPrefix(cidr.value))
    }

    /** initAllocators: the counters start at the larger of the base and every restored session's number. */
    constructor (addressing: Addressing, cidr: Option<Prefix>, reqIDBase: Option<nat>, innerStart: Option<nat>,
                 sessions: map<string, Session>)
      requires cidr.Some? ==> WellFormedPrefix(cidr.value)
      requires forall id :: id in sessions ==> sessions[id].reqID < WORD
      ensures Valid() && this.addressing == addressing && this.cidr == cidr
      ensures var base := if reqIDBase.Some? && 0 < reqIDBase.value < 0x1_0000_0000 then reqIDBase.value else 1000;
        PastReqIDs(sessions, base - 1, nextReqID)
      ensures var start := if innerStart.Some? && 0 < innerStart.value < 0x1_0000_0000 then innerStart.value else 10;
        PastOffsets(addressing, cidr, sessions, start - 1, nextClientInnerID)
    {
      this.addressing, this.cidr := addressing, cidr;
      var maxReqID := Setting(reqIDBase, REQID_BASE) - 1;
      var maxInnerOffset := Setting(innerStart, INNER_START) - 1;
      ghost var req0, inner0 := maxReqID, maxInnerOffset;
      var left := sessions.Keys;
      assert sessions - left == map[];
      assert PastReqIDs(map[], req0, maxReqID) && PastOffsets(addressing, cidr, map[], inner0, maxInnerOffset);
      hide PastReqIDs, PastOffsets, ClientInnerIPOffset;
      while left != {}
        invariant left <= sessions.Keys && maxReqID < WORD && maxInnerOffset < WORD
        invariant PastReqIDs(sessions - left, req0, maxReqID)
        invariant PastOffsets(addressing, cidr, sessions - left, inner0, maxInnerOffset)
        decreases left
      {
        var id :| id in left;
        var s := sessions[id];
        ghost var seen := sessions - left;
        left := left - {id};
        assert sessions - left == seen[id := s];
        OneMoreSession(addressing, cidr, seen, id, s, req0, maxReqID, inner0, maxInnerOffset);
        if s.reqID > maxReqID {
          maxReqID := s.reqID;
        }
        var offset := ClientInnerIPOffset(cidr, addressing.parse(s.clientInnerIP));
        if offset.Success? && offset.value > maxInnerOffset {
          maxInnerOffset := offset.value;
        }
      }
      assert sessions - left == sessions;
      nextReqID, nextClientInnerID := maxReqID, maxInnerOffset;
    }

    method AllocateReqID() returns (reqID: nat)
      requires Valid()
      modifies `nextReqID
      ensures Valid() && reqID == nextReqID == Next(old(nextReqID))
    {
      nextReqID := Next(nextReqID);
      reqID := nextReqID;
    }

    /** A failed allocation still moves the counter. */
    method AllocateClientInnerIP() returns (r: Result<string, PoolError>)
      requires Valid()
      modifies `nextClientInnerID
      ensures Valid() && nextClientInnerID == Next(old(nextClientInnerID))
      ensures r == InnerIP(addressing, cidr, nextClientInnerID)
    {
      nextClientInnerID := Next(nextClientInnerID);
      var value := ClientInnerIPFromOffset(cidr, nextClientInnerID);
      if value.Failure? {
        return Failure(value.error);
      }
      r := Success(addressing.format(value.value));
    }
  }

  function InnerIP(a: Addressing, cidr: Option<Prefix>, offset: nat): Result<string, PoolError>
    requires cidr.Some? ==> WellFormedPrefix(cidr.value)
  {
    match ClientInnerIPFromOffset(cidr, offset)
    case Failure(err) => Failure(err)
    case Success(addr) => Success(a.format(addr))
  }

  /** `top` is the maximum of `base` and the sessions' reqids. */
  ghost predicate PastReqIDs(sessions: map<string, Session>, base: int, top: int) {
    && base <= top
    && (forall id :: id in sessions ==> sessions[id].reqID <= top)
    && (top == base || exists id :: id in sessions && sessions[id].reqID == top)
  }

  lemma OneMoreSession(a: Addressing, cidr: Option<Prefix>, seen: map<string, Session>, id: string, s: Session,
                       req0: int, maxReqID: int, inner0: int, maxInner: int)
    requires cidr.Some? ==> WellFormedPrefix(cidr.value)
    requires id !in seen && PastReqIDs(seen, req0, maxReqID) && PastOffsets(a, cidr, seen, inner0, maxInner)
    ensures PastReqIDs(seen[id := s], req0, if s.reqID > maxReqID then s.reqID else maxReqID)
    ensures var offset := OffsetOf(a, cidr, s);
      PastOffsets(a, cidr, seen[id := s], inner0,
                  if offset.Some? && offset.value > maxInner then offset.value else maxInner)
  {
    hide OffsetOf;
    var after := seen[id := s];
    assert after[id] == s;
    if maxReqID != req0 {
      var i :| i in seen && seen[i].reqID == maxReqID;
      assert after[i] == seen[i];
    }
    if maxInner != inner0 {
      var i :| i in seen && OffsetOf(a, cidr, seen[i]) == Some(maxInner);
      assert after[i] == seen[i];
    }
  }

  function OffsetOf(a: Addressing, cidr: Option<Prefix>, s: Session): Option<nat>
    requires cidr.Some? ==> WellFormedPrefix(cidr.value)
  {
    match ClientInnerIPOffset(cidr, a.parse(s.clientInnerIP)) case Success(n) => Some(n) case Failure(_) => None
  }

  /** `top` is the maximum of `base` and the offsets of the sessions inside the prefix. */
  ghost predicate PastOffsets(a: Addressing, cidr: Option<Prefix>, sessions: map<string, Session>, base: int, top: int)
    requires cidr.Some? ==> WellFormedPrefix(cidr.value)
  {
    && base <= top
    && (forall id :: id in sessions && OffsetOf(a, cidr, sessions[id]).Some? ==>
        OffsetOf(a, cidr, sessions[id]).value <= top)
    && (top == base || exists id :: id in sessions && OffsetOf(a, cidr, sessions[id]) == Some(top))
  }

  /**
   After start-up no reqid repeats within 2^32 allocations, and a restored session's reqid is not handed out
   before the counter has come round to it, which is exactly 2^32 less its distance from the largest.
   */
  lemma ReqIDsAreFresh(sessions: map<string, Session>, base: nat, top: nat, i: nat, j: nat)
    requires PastReqIDs(sessions, base, top) && top < WORD
    requires 0 < i < j
    ensures Issued(top, i) == Issued(top, j) <==> WholeTurns(j - i)
    ensures j - i < WORD ==> Issued(top, i) != Issued(top, j)
    ensures forall id :: id in sessions ==>
      (Issued(top, i) == sessions[id].reqID <==> WholeTurns(i + (top - sessions[id].reqID)))
    ensures forall id :: id in sessions && i < WORD - (top - sessions[id].reqID) ==>
        Issued(top, i) != sessions[id].reqID
  {
    hide Issued, WholeTurns;
    IssuedRepeats(top, i, j);
    TurnsOfAWord(j - i);
    forall id | id in sessions
      ensures Issued(top, i) == sessions[id].reqID <==> WholeTurns(i + (top - sessions[id].reqID))
      ensures i < WORD - (top - sessions[id].reqID) ==> Issued(top, i) != sessions[id].reqID
    {
      IssuedReturns(top, sessions[id].reqID, i);
    }
  }

  /** Two offsets the pool accepts print as the same address only if they are the same offset. */
  lemma InnerIPInjective(a: Addressing, x: Prefix, m: nat, n: nat)
    requires Printable(a) && WellFormedPrefix(x)
    requires InnerIP(a, Some(x), m).Success? && InnerIP(a, Some(x), m) == InnerIP(a, Some(x), n)
    ensures m == n
  {
    PoolIsExact(x, m);
    PoolIsExact(x, n);
  }

  /**
   The same for inner addresses.  An allocation that succeeds repeats another exactly if the counter has gone
   round in between, and hands out a restored session's address exactly if that lies inside the prefix and the
   counter has come round to its offset.
   */
  lemma InnerIPsAreFresh(a: Addressing, x: Prefix, sessions: map<string, Session>, base: nat, top: nat, i: nat, j: nat)
    requires Printable(a) && WellFormedPrefix(x)
    requires PastOffsets(a, Some(x), sessions, base, top) && top < WORD
    requires 0 < i < j && InnerIP(a, Some(x), Issued(top, i)).Success?
    ensures InnerIP(a, Some(x), Issued(top, i)) == InnerIP(a, Some(x), Issued(top, j)) <==> WholeTurns(j - i)
    ensures j - i < WORD ==> InnerIP(a, Some(x), Issued(top, i)) != InnerIP(a, Some(x), Issued(top, j))
    ensures forall id :: id in sessions ==>
      (a.parse(InnerIP(a, Some(x), Issued(top, i)).value) == a.parse(sessions[id].clientInnerIP)
       <==> Returned(OffsetOf(a, Some(x), sessions[id]), top, i))
  {
    hide Issued, InnerIP, OffsetOf, WholeTurns;
    IssuedRepeats(top, i, j);
    TurnsOfAWord(j - i);
    if InnerIP(a, Some(x), Issued(top, i)) == InnerIP(a, Some(x), Issued(top, j)) {
      InnerIPInjective(a, x, Issued(top, i), Issued(top, j));
    }
    forall id | id in sessions
      ensures a.parse(InnerIP(a, Some(x), Issued(top, i)).value) == a.parse(sessions[id].clientInnerIP)
              <==> Returned(OffsetOf(a, Some(x), sessions[id]), top, i)
    {
      var offset := OffsetOf(a, Some(x), sessions[id]);
      SameAddress(a, x, Issued(top, i), sessions[id]);
      if offset.Some? {
        IssuedReturns(top, offset.value, i);
      }
    }
  }

  /** The i-th allocation after `top` has come round to this offset. */
  predicate Returned(offset: Option<nat>, top: nat, i: nat)
    requires offset.Some? ==> offset.value <= top
  {
    offset.Some? && WholeTurns(i + (top - offset.value))
  }

  /** An address handed out is a session's exactly if it was handed out at the session's offset. */
  lemma SameAddress(a: Addressing, x: Prefix, n: nat, s: Session)
    requires Printable(a) && WellFormedPrefix(x) && InnerIP(a, Some(x), n).Success?
    ensures a.parse(InnerIP(a, Some(x), n).value) == a.parse(s.clientInnerIP) <==> OffsetOf(a, Some(x), s) == Some(n)
  {
    hide PoolSize, Masked;
    PoolIsExact(x, n);
    var addr := ClientInnerIPFromOffset(Some(x), n).value;
    assert a.parse(a.format(addr)) == Some(addr);
    if OffsetOf(a, Some(x), s) == Some(n) {
      var theirs := a.parse(s.clientInnerIP).value;
      BlockFits(x);
      InBlock(x, theirs);
    }
  }

  /** A single session restored at offset 1: the address is handed out again when the counter comes round. */
  lemma WrappedAddressCollides(a: Addressing, x: Prefix, s: Session)
    requires Printable(a) && WellFormedPrefix(x) && x.bits <= 30 && s.clientInnerIP == a.format(Network(x) + 1)
    ensures var sessions, top := map["only" := s], INNER_START - 1;
      && PastOffsets(a, Some(x), sessions, INNER_START - 1, top)
      && InnerIP(a, Some(x), Issued(top, WORD - (top - 1))) == Success(s.clientInnerIP)
  {
    hide Issued, PoolSize, Masked;
    SmallPool(x);
    PoolIsExact(x, 1);
    BlockFits(x);
    assert a.parse(s.clientInnerIP) == Some(Network(x) + 1);
    IssuedReturns(INNER_START - 1, 1, 1);
  }

  lemma SmallPool(x: Prefix)
    requires x.bits <= 32
    ensures x.bits <= 30 <==> PoolSize(x) >= 4
  {
    if x.bits <= 30 {
      assert Pow2(32 - x.bits) == 2 * Pow2(31 - x.bits) && Pow2(31 - x.bits) == 2 * Pow2(30 - x.bits);
    } else if x.bits == 31 {
      assert Pow2(1) == 2 * Pow2(0);
    }
  }

  /** Where the counter has come round: one session restored at the top of the range, one at the bottom. */
  lemma WrappedReqIDCollides(low: Session, high: Session)
    requires low.reqID == 1 && high.reqID == WORD - 1
    ensures var sessions := map["low" := low, "high" := high];
      && PastReqIDs(sessions, REQID_BASE - 1, WORD - 1)
      && Issued(WORD - 1, 1) == 0
      && Issued(WORD - 1, 2) == sessions["low"].reqID
  {
    IssuedIs(WORD - 1, 1);
    IssuedIs(WORD - 1, 2);
    assert map["low" := low, "high" := high]["high"].reqID == WORD - 1;
  }
}
