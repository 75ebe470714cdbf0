/** Splitting a test run: `--shard i/n` and the scenarios it selects. */
module Shards {
  import opened Base

  datatype Shard = Shard(index: nat, total: nat)

  // ---- the option -----------------------------------------------------------------------------------

  predicate IsDigit(c: char) {
    '0' <= c <= '9'
  }

  predicate IsNumber(s: string) {
    s != "" && forall i :: 0 <= i < |s| ==> IsDigit(s[i])
  }

  function Value(s: string): nat
    requires forall i :: 0 <= i < |s| ==> IsDigit(s[i])
  {
    if s == "" then 0
    else
      assert IsDigit(s[|s| - 1]);
      Value(s[..|s| - 1]) * 10 + (s[|s| - 1] as int - '0' as int)
  }

  /** The length of the leading run of digits. */
  function DigitsEnd(s: string): (k: nat)
    ensures k <= |s| && (forall i :: 0 <= i < k ==> IsDigit(s[i])) && (k < |s| ==> !IsDigit(s[k]))
  {
    if s == "" || !IsDigit(s[0]) then 0 else 1 + DigitsEnd(s[1..])
  }

  function ParseShard(value: string): Option<Shard> {
    var k := DigitsEnd(value);
    if k == 0 || k == |value| || value[k] != '/' || !IsNumber(value[k + 1..]) then None
    else
      var index, total := Value(value[..k]), Value(value[k + 1..]);
      if index < 1 || total < 1 || index > total then None else Some(Shard(index, total))
  }

  function Print(n: nat): (s: string)
    ensures IsNumber(s) && Value(s) == n
  {
    if n < 10 then [('0' as int + n) as char]
    else
      var rest := Print(n / 10);
      var s := rest + [('0' as int + n % 10) as char];
      assert s[..|s| - 1] == rest;
      s
  }

  lemma DigitsEndAt(digits: string, rest: string)
    requires forall i :: 0 <= i < |digits| ==> IsDigit(digits[i])
    requires rest != "" && !IsDigit(rest[0])
    ensures DigitsEnd(digits + rest) == |digits|
  {
    if digits == "" {
      assert "" + rest == rest;
    } else {
      assert (digits + rest)[1..] == digits[1..] + rest;
      DigitsEndAt(digits[1..], rest);
    }
  }

  /** Two numbers around a slash are read as their values. */
  lemma NumbersAreParsed(first: string, second: string)
    requires IsNumber(first) && IsNumber(second)
    ensures ParseShard(first + "/" + second) ==
              if 1 <= Value(first) <= Value(second) then Some(Shard(Value(first), Value(second))) else None
  {
    var rest := "/" + second;
    var s, k := first + rest, |first|;
    assert first + "/" + second == s;
    DigitsEndAt(first, rest);
    assert s[..k] == first && s[k] == '/' && s[k + 1..] == second;
  }

  /** Every shard that exists can be written and is read back; no other pair of numbers is accepted. */
  lemma PrintedIsParsed(index: nat, total: nat)
    ensures ParseShard(Print(index) + "/" + Print(total)) ==
              if 1 <= index <= total then Some(Shard(index, total)) else None
  {
    NumbersAreParsed(Print(index), Print(total));
  }

  // ---- the selection --------------------------------------------------------------------------------

  predicate Takes(shard: Shard, position: nat)
    requires shard.total > 0
  {
    position % shard.total == shard.index - 1
  }

  /** The positions below `n` that a shard takes, ascending. */
  function Positions(n: nat, shard: Shard): seq<nat>
    requires shard.total > 0
  {
    if n == 0 then []
    else Positions(n - 1, shard) + (if Takes(shard, n - 1) then [n - 1] else [])
  }

  function At<T>(names: seq<T>, positions: seq<nat>): (r: seq<T>)
    requires forall i :: 0 <= i < |positions| ==> positions[i] < |names|
    ensures |r| == |positions| && forall i :: 0 <= i < |positions| ==> r[i] == names[positions[i]]
  {
    if positions == [] then [] else [names[positions[0]]] + At(names, positions[1..])
  }

  predicate Below(positions: seq<nat>, n: nat) {
    forall i :: 0 <= i < |positions| ==> positions[i] < n
  }

  method SelectShard<T>(names: seq<T>, shard: Option<Shard>) returns (r: seq<T>)
    requires shard.Some? ==> shard.value.total > 0
    ensures shard.None? ==> r == names
    ensures shard.Some? ==> Below(Positions(|names|, shard.value), |names|)
                            && r == At(names, Positions(|names|, shard.value))
  {
    if shard.None? {
      return names;
    }
    var s := shard.value;
    r := [];
    for position := 0 to |names|
      invariant Below(Positions(position, s), position)
      invariant r == At(names, Positions(position, s))
    {
      if Takes(s, position) {
        AtSnoc(names, Positions(position, s), position);
        r := r + [names[position]];
      }
    }
  }

  /** A shard's positions are exactly those of its residue, ascending. */
  lemma {:induction false} PositionsMeaning(n: nat, shard: Shard)
    requires shard.total > 0
    ensures forall p: nat :: p in Positions(n, shard) <==> p < n && Takes(shard, p)
    ensures Below(Positions(n, shard), n) && Ascending(Positions(n, shard))
  {
    if n > 0 {
      PositionsMeaning(n - 1, shard);
      var before := Positions(n - 1, shard);
      var more := if Takes(shard, n - 1) then [n - 1] else [];
      assert forall p: nat :: p in before + more <==> p in before || p in more;
    }
  }

  predicate Ascending(positions: seq<nat>) {
    forall i, j :: 0 <= i < j < |positions| ==> positions[i] < positions[j]
  }

  lemma AtSnoc<T>(names: seq<T>, positions: seq<nat>, last: nat)
    requires Below(positions, |names|) && last < |names|
    ensures At(names, positions + [last]) == At(names, positions) + [names[last]]
  {
  }

  /** Every position belongs to exactly one shard. */
  lemma ShardsPartition(n: nat, total: nat, p: nat)
    requires total > 0 && p < n
    ensures 1 <= p % total + 1 <= total && p in Positions(n, Shard(p % total + 1, total))
    ensures forall i :: 1 <= i <= total && p in Positions(n, Shard(i, total)) ==> i == p % total + 1
  {
    forall i: nat | 1 <= i <= total ensures p in Positions(n, Shard(i, total)) <==> Takes(Shard(i, total), p) {
      PositionsMeaning(n, Shard(i, total));
    }
  }

  /** How many positions below `n` have residue `r`. */
  lemma {:induction false} PositionsCount(n: nat, shard: Shard)
    requires 1 <= shard.index <= shard.total
    ensures |Positions(n, shard)| == n / shard.total + (if n % shard.total >= shard.index then 1 else 0)
    decreases n
  {
    if n > 0 {
      PositionsCount(n - 1, shard);
      DivisionStep(n - 1, shard.total);
    }
  }

  lemma DivisionStep(n: nat, d: nat)
    requires d > 0
    ensures if n % d == d - 1 then (n + 1) / d == n / d + 1 && (n + 1) % d == 0
            else (n + 1) / d == n / d && (n + 1) % d == n % d + 1
  {
    var q, r := n / d, n % d;
    assert n == d * q + r;
    if r == d - 1 {
      assert n + 1 == d * (q + 1);
      Divides(n + 1, d, q + 1, 0);
    } else {
      Divides(n + 1, d, q, r + 1);
    }
  }

  lemma AtLeastOnce(d: nat, k: nat)
    requires k >= 1
    ensures d * k >= d
  {
    assert d * k == d * (k - 1) + d;
  }

  lemma Gap(d: nat, q: nat, p: nat)
    ensures q > p ==> d * q >= d * p + d
  {
    if q > p {
      AtLeastOnce(d, q - p);
      assert d * q == d * p + d * (q - p);
    }
  }

  /** Quotient and remainder are determined by what they give. */
  lemma SameQuotient(d: nat, q: nat, r: nat, p: nat, t: nat)
    requires d * q + r == d * p + t && r < d && t < d
    ensures q == p && r == t
  {
    Gap(d, q, p);
    Gap(d, p, q);
  }

  lemma Divides(n: nat, d: nat, q: nat, r: nat)
    requires d > 0 && n == d * q + r && r < d
    ensures n / d == q && n % d == r
  {
    SameQuotient(d, q, r, n / d, n % d);
  }

  /** The sizes of any two shards differ by at most one. */
  lemma ShardsAreEven(n: nat, total: nat, i: nat, j: nat)
    requires 1 <= i <= total && 1 <= j <= total
    ensures -1 <= |Positions(n, Shard(i, total))| - |Positions(n, Shard(j, total))| <= 1
  {
    PositionsCount(n, Shard(i, total));
    PositionsCount(n, Shard(j, total));
  }
}
