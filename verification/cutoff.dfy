/** The cutoff detector of the ACF/PACF analyzer: scans correlation
    coefficients (lag 0 already removed) for the first lag that is
    insignificant and stays insignificant. */
module CutoffDetector {
  import opened Wrappers

  function Abs(x: real): (r: real)
    ensures r >= 0.0 && (r == x || r == -x)
  {
    if x < 0.0 then -x else x
  }

  function Min(a: int, b: int): (m: int)
    ensures m <= a && m <= b && (m == a || m == b)
  {
    if a < b then a else b
  }

  /** A coefficient is insignificant when its magnitude is strictly below the threshold. */
  predicate Insignificant(v: real, threshold: real)
  {
    Abs(v) < threshold
  }

  /** Every coefficient at positions lo..hi-1 is insignificant: the window check. */
  predicate AllInsignificant(values: seq<real>, threshold: real, lo: nat, hi: nat)
    requires lo <= hi <= |values|
  {
    forall j :: lo <= j < hi ==> Insignificant(values[j], threshold)
  }

  /** Number of positions the scan visits: range(min(len(values), max_order)),
      which is empty when max_order is zero or negative. */
  function ScanLength(values: seq<real>, maxOrder: int): (n: nat)
    ensures n <= |values|
    ensures n as int <= maxOrder || n == 0
    ensures n as int == |values| || n as int == maxOrder || (n == 0 && maxOrder <= 0)
  {
    var m := Min(|values|, maxOrder);
    if m < 0 then 0 else m
  }

  /** The confirmation rule at 0-based position i: the value itself is
      insignificant and, unless i is one of the last two positions of the whole
      sequence, so is every value of the window [i, min(i+3, len)). */
  predicate Confirmed(values: seq<real>, threshold: real, i: nat)
    requires i < |values|
  {
    && Insignificant(values[i], threshold)
    && (i < |values| - 2 ==> AllInsignificant(values, threshold, i, Min(i + 3, |values|)))
  }

  /** The scan from position i on: the 1-based lag of the first confirmed
      position below scan, or None. */
  function CutoffFrom(values: seq<real>, threshold: real, scan: nat, i: nat): Option<nat>
    requires scan <= |values|
    decreases scan - i
  {
    if i >= scan then None
    else if Confirmed(values, threshold, i) then Some(i + 1)
    else CutoffFrom(values, threshold, scan, i + 1)
  }

  /** What the detector returns for the given coefficients, threshold and maximum order. */
  function Cutoff(values: seq<real>, threshold: real, maxOrder: int): Option<nat>
  {
    CutoffFrom(values, threshold, ScanLength(values, maxOrder), 0)
  }

  /** Independent statement of "k is the cutoff": k is a lag inside the scanned
      range, position k-1 is confirmed, and no earlier position is. */
  predicate IsFirstConfirmed(values: seq<real>, threshold: real, maxOrder: int, k: nat)
  {
    && 1 <= k <= ScanLength(values, maxOrder)
    && Confirmed(values, threshold, k - 1)
    && forall i :: 0 <= i < k - 1 ==> !Confirmed(values, threshold, i)
  }

  /** The scan loop: visits positions in increasing order and returns on the
      first one that passes the confirmation rule. */
  method FindCutoff(values: seq<real>, threshold: real, maxOrder: int) returns (cutoff: Option<nat>)
    ensures cutoff == Cutoff(values, threshold, maxOrder)
  {
    var scan := ScanLength(values, maxOrder);
    for i := 0 to scan
      invariant CutoffFrom(values, threshold, scan, i) == Cutoff(values, threshold, maxOrder)
    {
      if Abs(values[i]) < threshold {
        if i < |values| - 2 {
          if AllInsignificant(values, threshold, i, Min(i + 3, |values|)) {
            return Some(i + 1);
          }
        } else {
          return Some(i + 1);
        }
      }
    }
    return None;
  }

  lemma {:induction false} CutoffFromSome(values: seq<real>, threshold: real, scan: nat, i: nat, k: nat)
    requires scan <= |values| && i <= scan
    ensures CutoffFrom(values, threshold, scan, i) == Some(k) <==>
              && i < k <= scan
              && Confirmed(values, threshold, k - 1)
              && forall j :: i <= j < k - 1 ==> !Confirmed(values, threshold, j)
    decreases scan - i
  {
    if i < scan && !Confirmed(values, threshold, i) {
      CutoffFromSome(values, threshold, scan, i + 1, k);
    }
  }

  lemma {:induction false} CutoffFromNone(values: seq<real>, threshold: real, scan: nat, i: nat)
    requires scan <= |values| && i <= scan
    ensures CutoffFrom(values, threshold, scan, i) == None <==>
              forall j :: i <= j < scan ==> !Confirmed(values, threshold, j)
    decreases scan - i
  {
    if i < scan && !Confirmed(values, threshold, i) {
      CutoffFromNone(values, threshold, scan, i + 1);
    }
  }

  /** The detector returns k exactly when k is the first confirmed lag of the
      scanned range, and None exactly when no scanned position is confirmed. */
  lemma CutoffCharacterization(values: seq<real>, threshold: real, maxOrder: int)
    ensures forall k: nat :: Cutoff(values, threshold, maxOrder) == Some(k) <==> IsFirstConfirmed(values, threshold, maxOrder, k)
    ensures Cutoff(values, threshold, maxOrder) == None <==>
              forall i :: 0 <= i < ScanLength(values, maxOrder) ==> !Confirmed(values, threshold, i)
  {
    var scan := ScanLength(values, maxOrder);
    forall k: nat
      ensures Cutoff(values, threshold, maxOrder) == Some(k) <==> IsFirstConfirmed(values, threshold, maxOrder, k)
    {
      CutoffFromSome(values, threshold, scan, 0, k);
    }
    CutoffFromNone(values, threshold, scan, 0);
  }

  /** A returned cutoff is a 1-based lag no larger than min(len(values), max_order). */
  lemma CutoffInRange(values: seq<real>, threshold: real, maxOrder: int)
    ensures Cutoff(values, threshold, maxOrder).Some? ==>
              var k := Cutoff(values, threshold, maxOrder).value;
              1 <= k && k <= |values| && k as int <= maxOrder
  {
    if Cutoff(values, threshold, maxOrder).Some? {
      CutoffCharacterization(values, threshold, maxOrder);
    }
  }

  /** Which coefficients a returned cutoff k guarantees to be insignificant:
      the three positions k-1, k, k+1 when k-1 < len-2, otherwise position
      k-1 alone (the relaxation near the end of the sequence). */
  lemma CutoffWindow(values: seq<real>, threshold: real, maxOrder: int)
    ensures Cutoff(values, threshold, maxOrder).Some? ==>
              var k := Cutoff(values, threshold, maxOrder).value;
              && 1 <= k <= |values|
              && Insignificant(values[k - 1], threshold)
              && (k - 1 < |values| - 2 ==>
                    k + 2 <= |values| && forall j :: k - 1 <= j < k + 2 ==> Insignificant(values[j], threshold))
  {
    if Cutoff(values, threshold, maxOrder).Some? {
      CutoffCharacterization(values, threshold, maxOrder);
    }
  }

  /** No position before a returned cutoff passes the confirmation rule. */
  lemma CutoffIsLeast(values: seq<real>, threshold: real, maxOrder: int, i: nat)
    requires Cutoff(values, threshold, maxOrder).Some?
    requires i < Cutoff(values, threshold, maxOrder).value - 1
    ensures i < |values| && !Confirmed(values, threshold, i)
  {
    CutoffCharacterization(values, threshold, maxOrder);
  }

  /** When every scanned coefficient is significant, there is no cutoff. */
  lemma NoCutoffWhenAllSignificant(values: seq<real>, threshold: real, maxOrder: int)
    requires forall i :: 0 <= i < ScanLength(values, maxOrder) ==> Abs(values[i]) >= threshold
    ensures Cutoff(values, threshold, maxOrder) == None
  {
    CutoffCharacterization(values, threshold, maxOrder);
  }

  /** Conversely to CutoffWindow: three insignificant values starting at
      position k-1, with no earlier confirmed position, make k the cutoff. */
  lemma CutoffFromWindow(values: seq<real>, threshold: real, maxOrder: int, k: nat)
    requires 1 <= k <= ScanLength(values, maxOrder)
    requires forall j :: k - 1 <= j < Min(k + 2, |values|) ==> Insignificant(values[j], threshold)
    requires forall i :: 0 <= i < k - 1 ==> !Confirmed(values, threshold, i)
    ensures Cutoff(values, threshold, maxOrder) == Some(k)
  {
    CutoffCharacterization(values, threshold, maxOrder);
    assert Confirmed(values, threshold, k - 1);
  }
}
