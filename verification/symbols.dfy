/** Pairing Binance and KuCoin perpetual symbols by a normalised name
    (`normalize` and the tail of `get_common_symbols` in bot.py). */
module Symbols {

  function UpperChar(c: char): char {
    if 'a' <= c <= 'z' then (c as int - 32) as char else c
  }

  /** `str.upper()` restricted to ASCII letters. */
  function Upper(s: string): (u: string)
    ensures |u| == |s|
  {
    seq(|s|, i requires 0 <= i < |s| => UpperChar(s[i]))
  }

  predicate EndsWith(s: string, suffix: string) {
    |suffix| <= |s| && s[|s| - |suffix|..] == suffix
  }

  /** Upper-case a symbol and drop the last character of a `USDTM`, `USDTP`
      or `M` suffix, so that KuCoin's `XYZUSDTM` meets Binance's `XYZUSDT`. */
  function Normalize(sym: string): string {
    if sym == "" then sym
    else
      var s := Upper(sym);
      if EndsWith(s, "USDTM") then s[..|s| - 1]
      else if EndsWith(s, "USDTP") then s[..|s| - 1]
      else if EndsWith(s, "M") then s[..|s| - 1]
      else s
  }

  /** The result is the upper-cased symbol with at most its last character
      removed; the character is removed exactly when the upper-cased symbol
      ends in `M` (which covers `USDTM`) or in `USDTP`. */
  lemma NormalizeDropsAtMostLast(sym: string)
    ensures var u := Upper(sym);
      if EndsWith(u, "M") || EndsWith(u, "USDTP") then |u| > 0 && Normalize(sym) == u[..|u| - 1]
      else Normalize(sym) == u
  {
    var u := Upper(sym);
    if EndsWith(u, "USDTM") {
      assert u[|u| - 1..] == u[|u| - 5..][4..];
    }
  }

  lemma UpperAppend(a: string, b: string)
    ensures Upper(a + b) == Upper(a) + Upper(b)
  {
    var l, r := Upper(a + b), Upper(a) + Upper(b);
    assert |l| == |r|;
    forall i | 0 <= i < |l| ensures l[i] == r[i] {
      if i < |a| { assert (a + b)[i] == a[i]; } else { assert (a + b)[i] == b[i - |a|]; }
    }
  }

  lemma EndsWithLast(s: string, suffix: string)
    ensures EndsWith(s, suffix) && |suffix| > 0 ==> s[|s| - 1] == suffix[|suffix| - 1]
  {
    if EndsWith(s, suffix) && |suffix| > 0 {
      assert s[|s| - |suffix|..][|suffix| - 1] == s[|s| - 1];
    }
  }

  /** The pairing the normalisation exists for: a KuCoin `<base>USDTM`
      contract and a Binance `<base>USDT` contract get the same name. */
  lemma KucoinAndBinanceNamesMeet(base: string)
    ensures Normalize(base + "USDTM") == Upper(base) + "USDT"
    ensures Normalize(base + "USDT") == Upper(base) + "USDT"
  {
    UpperAppend(base, "USDTM");
    UpperAppend(base, "USDT");
    assert Upper("USDTM") == "USDTM";
    assert Upper("USDT") == "USDT";
    var u := Upper(base) + "USDTM";
    assert u[|u| - 1..] == "M";
    assert u[..|u| - 1] == Upper(base) + "USDT";
    var v := Upper(base) + "USDT";
    assert v[|v| - 1] == 'T';
    EndsWithLast(v, "M");
    EndsWithLast(v, "USDTP");
  }

  /** The normalised name of every symbol of the list, in order. */
  function Names(syms: seq<string>): (names: seq<string>)
    ensures |names| == |syms|
  {
    seq(|syms|, i requires 0 <= i < |syms| => Normalize(syms[i]))
  }

  /** Index of the first occurrence of `k` in `keys` (`|keys|` when absent). */
  function FirstIndex(keys: seq<string>, k: string): (i: nat)
    ensures i <= |keys|
    ensures i < |keys| ==> keys[i] == k
    ensures forall j :: 0 <= j < i ==> keys[j] != k
  {
    if keys == [] then 0
    else if keys[0] == k then 0
    else 1 + FirstIndex(keys[1..], k)
  }

  /** Whether the symbol at `i` is a later, different symbol whose normalised
      name was already taken by the first one. */
  predicate IsDuplicate(syms: seq<string>, names: seq<string>, i: nat)
    requires |names| == |syms| && i < |syms|
  {
    syms[i] != syms[FirstIndex(names, names[i])]
  }

  /** The number of duplicates among the first `n` symbols. */
  function DupsUpTo(syms: seq<string>, names: seq<string>, n: nat): nat
    requires |names| == |syms| && n <= |syms|
  {
    if n == 0 then 0 else DupsUpTo(syms, names, n - 1) + (if IsDuplicate(syms, names, n - 1) then 1 else 0)
  }

  /** The state of the loop of `get_common_symbols` after its first `n`
      KuCoin symbols, with `names[i]` standing for `normalize(syms[i])`: the
      map keeps, for each name, the first symbol that has it, and a later,
      different symbol with a taken name only bumps the duplicate counter. */
  function ScanUpTo(syms: seq<string>, names: seq<string>, n: nat): (map<string, string>, nat)
    requires |names| == |syms| && n <= |syms|
  {
    if n == 0 then (map[], 0)
    else
      var (kept, dups) := ScanUpTo(syms, names, n - 1);
      var s, k := syms[n - 1], names[n - 1];
      if k in kept && kept[k] != s then (kept, dups + 1) else (kept[k := s], dups)
  }

  /** The names the loop has seen are exactly the keys of its map. */
  lemma {:induction false} ScanUpToKeys(syms: seq<string>, names: seq<string>, n: nat)
    requires |names| == |syms| && n <= |syms|
    ensures forall k :: k in ScanUpTo(syms, names, n).0 <==> k in names[..n]
  {
    if n > 0 {
      ScanUpToKeys(syms, names, n - 1);
      assert names[..n] == names[..n - 1] + [names[n - 1]];
    }
  }

  /** Each key maps to the first symbol carrying that name. */
  lemma {:induction false} ScanUpToValues(syms: seq<string>, names: seq<string>, n: nat)
    requires |names| == |syms| && n <= |syms|
    ensures var kept := ScanUpTo(syms, names, n).0;
      forall k :: k in kept ==> FirstIndex(names, k) < n && kept[k] == syms[FirstIndex(names, k)]
  {
    if n > 0 {
      ScanUpToValues(syms, names, n - 1);
      ScanUpToKeys(syms, names, n - 1);
      var kept := ScanUpTo(syms, names, n - 1).0;
      var i := n - 1;
      var k := names[i];
      var f := FirstIndex(names, k);
      if k !in kept {
        forall j | 0 <= j < i ensures names[j] != k {
          assert names[j] == names[..i][j];
        }
      }
    }
  }

  /** The loop counts symbol `i` exactly when it is a duplicate. */
  lemma ScanStepCountsDuplicate(syms: seq<string>, names: seq<string>, i: nat)
    requires |names| == |syms| && i < |syms|
    ensures var kept := ScanUpTo(syms, names, i).0;
      IsDuplicate(syms, names, i) <==> names[i] in kept && kept[names[i]] != syms[i]
  {
    ScanUpToValues(syms, names, i);
    ScanUpToKeys(syms, names, i);
    var k := names[i];
    if k !in ScanUpTo(syms, names, i).0 {
      forall j | 0 <= j < i ensures names[j] != k {
        assert names[j] == names[..i][j];
      }
    }
  }

  /** The counter is the number of duplicates among the symbols scanned. */
  lemma {:induction false} ScanUpToCountsDuplicates(syms: seq<string>, names: seq<string>, n: nat)
    requires |names| == |syms| && n <= |syms|
    ensures ScanUpTo(syms, names, n).1 == DupsUpTo(syms, names, n)
  {
    if n > 0 {
      ScanUpToCountsDuplicates(syms, names, n - 1);
      ScanStepCountsDuplicate(syms, names, n - 1);
    }
  }

  /** The loop of `get_common_symbols` over the KuCoin symbols. */
  method KeepFirst(syms: seq<string>, names: seq<string>) returns (kept: map<string, string>, dupCount: nat)
    requires |names| == |syms|
    ensures forall k :: k in kept <==> k in names
    ensures forall k :: k in kept ==> FirstIndex(names, k) < |syms| && kept[k] == syms[FirstIndex(names, k)]
    ensures dupCount == DupsUpTo(syms, names, |syms|)
  {
    kept := map[];
    dupCount := 0;
    var i := 0;
    while i < |syms|
      invariant i <= |syms|
      invariant (kept, dupCount) == ScanUpTo(syms, names, i)
    {
      var s, n := syms[i], names[i];
      if n in kept && kept[n] != s {
        dupCount := dupCount + 1;
      } else {
        kept := kept[n := s];
      }
      i := i + 1;
    }
    ScanUpToKeys(syms, names, i);
    ScanUpToValues(syms, names, i);
    ScanUpToCountsDuplicates(syms, names, i);
    assert names[..i] == names;
  }

  /** `get_common_symbols` once both symbol lists are fetched: the names
      both venues list, the first KuCoin symbol for each normalised name,
      and the number of later KuCoin symbols that collide with a kept one. */
  method CommonSymbols(binSyms: seq<string>, kuSyms: seq<string>)
    returns (common: set<string>, kuMap: map<string, string>, dupCount: nat)
    ensures common == (set n | n in Names(binSyms)) * (set n | n in Names(kuSyms))
    ensures forall k :: k in kuMap <==> k in Names(kuSyms)
    ensures common <= kuMap.Keys
    ensures forall k :: k in kuMap ==> Normalize(kuMap[k]) == k
    ensures forall k :: k in kuMap ==> kuMap[k] == kuSyms[FirstIndex(Names(kuSyms), k)]
    ensures dupCount == DupsUpTo(kuSyms, Names(kuSyms), |kuSyms|)
  {
    var binNames, kuNames := Names(binSyms), Names(kuSyms);
    common := (set n | n in binNames) * (set n | n in kuNames);
    kuMap, dupCount := KeepFirst(kuSyms, kuNames);
    forall k | k in kuMap ensures Normalize(kuMap[k]) == k {
      var f := FirstIndex(kuNames, k);
      assert kuNames[f] == k;
    }
  }

  lemma {:induction false} NoDupsUpTo(syms: seq<string>, names: seq<string>, n: nat)
    requires |names| == |syms| && n <= |syms|
    ensures DupsUpTo(syms, names, n) == 0 <==> forall i :: 0 <= i < n ==> !IsDuplicate(syms, names, i)
  {
    if n > 0 { NoDupsUpTo(syms, names, n - 1); }
  }

  /** The duplicate counter is zero exactly when no two different KuCoin
      symbols share a normalised name. */
  lemma DupCountZeroIffInjective(syms: seq<string>)
    ensures DupsUpTo(syms, Names(syms), |syms|) == 0 <==>
      forall i, j :: 0 <= i < |syms| && 0 <= j < |syms| && Normalize(syms[i]) == Normalize(syms[j]) ==> syms[i] == syms[j]
  {
    var names := Names(syms);
    NoDupsUpTo(syms, names, |syms|);
    if DupsUpTo(syms, names, |syms|) == 0 {
      forall i, j | 0 <= i < |syms| && 0 <= j < |syms| && Normalize(syms[i]) == Normalize(syms[j])
        ensures syms[i] == syms[j]
      {
        assert names[i] == names[j];
        assert !IsDuplicate(syms, names, i) && !IsDuplicate(syms, names, j);
      }
    } else {
      var i :| 0 <= i < |syms| && IsDuplicate(syms, names, i);
      var f := FirstIndex(names, names[i]);
      assert Normalize(syms[i]) == Normalize(syms[f]) && syms[i] != syms[f];
    }
  }
}
