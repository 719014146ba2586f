// Names shared by every module: optional values, addresses, transaction hashes and the two
// saturating helpers of indexer/lib/indexing.ts.
module Common {
  datatype Option<+T> = None | Some(value: T)

  // An address as the handlers tell them apart: the zero address (mint and burn), the vault
  // itself (escrow, and the offerer of every order) and everybody else.
  datatype Address = Zero | Vault | Account(id: nat)

  // Transaction and order hashes. The source compares them case-insensitively; a number has one spelling.
  type Hash = nat

  const WAD: nat := 1_000_000_000_000_000_000

  // One option contract locks one whole share token.
  const LOT: nat := WAD

  const BPS: nat := 10_000

  // Saturating subtraction: a balance derived from logs must never go negative.
  function Sub(a: nat, b: nat): nat {
    if a > b then a - b else 0
  }

  // Integer division that answers 0 for a zero divisor.
  function SafeDiv(a: nat, b: nat): nat {
    if b == 0 then 0 else a / b
  }

  // A row, or the row a read-or-create would insert.
  function Get<K, V>(m: map<K, V>, k: K, bare: V): V {
    if k in m then m[k] else bare
  }

  predicate SameTx(a: Option<Hash>, b: Hash) {
    a == Some(b)
  }

  // A floored part of w, s out of r, is at most w.
  lemma PartOfWhole(w: nat, s: nat, r: nat)
    requires s <= r && 0 < r
    ensures 0 <= w * s / r <= w
  {
    var part := w * s / r;
    assert part * r <= w * s by { DivBelow(w * s, r); }
    MulMonotone(w, s, r);
    if part > w {
      MulMonotone(r, w + 1, part);
      assert false;
    }
  }

  lemma DivBelow(x: nat, r: nat)
    requires 0 < r
    ensures 0 <= x / r && x / r * r <= x < (x / r + 1) * r
  {
  }

  lemma MulMonotone(a: nat, b: nat, c: nat)
    requires b <= c
    ensures a * b <= a * c
  {
    assert a * c == a * b + a * (c - b);
  }

  lemma Swap(a: int, b: int, c: int)
    ensures (a * b) * c == (a * c) * b
  {
  }

  lemma Distribute(a: int, b: int, c: int)
    ensures (a + b) * c == a * c + b * c
  {
  }

  lemma Scale(a: int, b: int, c: nat)
    requires a <= b
    ensures a * c <= b * c
  {
  }

  lemma Cancel(a: int, b: int, c: nat)
    requires 0 < c && a * c <= b * c
    ensures a <= b
  {
    if a > b {
      Scale(b + 1, a, c);
      assert false;
    }
  }
}
