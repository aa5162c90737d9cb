/** The application shell's brand block: the brand fallbacks, the icon cycle and the brand-name edit. */
module App {
  import opened Wrappers
  import opened Model
  import Store
  import InitialData

  /** The brand used while the state has none. */
  const DefaultBrand: BrandSettings := BrandSettings("AbsaPiano", "Music")

  /** `data.brandSettings || { name: 'AbsaPiano', icon: 'Music' }`. */
  function BrandOrDefault(b: Option<BrandSettings>): (r: BrandSettings)
    ensures b.Some? ==> r == b.value
    ensures b.None? ==> r.name == "AbsaPiano" && r.icon == "Music" && r == InitialData.Brand
  {
    b.GetOr(DefaultBrand)
  }

  /** `keys.indexOf(x)`: the first position holding `x`, or -1 when there is none. */
  function IndexOf<K(==)>(keys: seq<K>, x: K): (r: int)
    ensures -1 <= r < |keys|
    ensures r == -1 <==> x !in keys
    ensures r >= 0 ==> keys[r] == x && x !in keys[..r]
  {
    if keys == [] then -1
    else if keys[0] == x then 0
    else
      var r := IndexOf(keys[1..], x);
      assert r >= 0 ==> keys[..r + 1] == [keys[0]] + keys[1..][..r];
      if r == -1 then -1 else r + 1
  }

  predicate AllDifferent<K(==)>(keys: seq<K>) {
    forall i, j :: 0 <= i < j < |keys| ==> keys[i] != keys[j]
  }

  /** In a list without repeats, `indexOf` finds each key at its own position. */
  lemma IndexOfOwnPosition<K>(keys: seq<K>, k: nat)
    requires AllDifferent(keys) && k < |keys|
    ensures IndexOf(keys, keys[k]) == k
  {
  }

  /** `keys[(keys.indexOf(x) + 1) % keys.length]`: the key after `x`, wrapping round; the first key when `x` is not a key. */
  function NextKey<K(==)>(keys: seq<K>, x: K): (next: K)
    requires keys != []
    ensures next in keys
    ensures x !in keys ==> next == keys[0]
  {
    keys[(IndexOf(keys, x) + 1) % |keys|]
  }

  /** `f` applied `n` times to `x`. */
  function Iterate<K>(f: K -> K, x: K, n: nat): K {
    if n == 0 then x else f(Iterate(f, x, n - 1))
  }

  /** One press of the icon button, as a step function on keys. */
  function Press<K(==)>(keys: seq<K>): K -> K
    requires keys != []
  {
    y => NextKey(keys, y)
  }

  /** The key `n` presses after `x`. */
  function CycleTimes<K(==)>(keys: seq<K>, x: K, n: nat): K
    requires keys != []
  {
    Iterate(Press(keys), x, n)
  }

  /** The position one place after `k` round a cycle of length `m`. */
  function NextPos(k: nat, m: nat): nat {
    if k + 1 < m then k + 1 else 0
  }

  /** `(i + 1) % m` for a position `i`, or for -1: one place on, wrapping from the last position to 0. */
  lemma NextIndexWraps(i: int, m: nat)
    requires m > 0 && -1 <= i < m
    ensures (i + 1) % m == if i + 1 < m then i + 1 else 0
  {
    if i + 1 == m {
      assert (i + 1) % m == 0 by {
        assert m % m == 0;
      }
    }
  }

  /** One press moves the key at position `k` of a list without repeats to the key at the next position. */
  lemma NextKeyMoves<K>(keys: seq<K>, k: nat)
    requires AllDifferent(keys) && k < |keys|
    ensures NextKey(keys, keys[k]) == keys[NextPos(k, |keys|)]
  {
    IndexOfOwnPosition(keys, k);
    NextIndexWraps(k, |keys|);
  }

  /** A step that moves the key at each position to the key at the next position, wrapping round. */
  ghost predicate MovesOn<K>(f: K -> K, keys: seq<K>) {
    forall j :: 0 <= j < |keys| ==> f(keys[j]) == keys[NextPos(j, |keys|)]
  }

  /** In a list without repeats, a press moves one position on. */
  lemma PressMovesOn<K>(keys: seq<K>)
    requires AllDifferent(keys) && keys != []
    ensures MovesOn(Press(keys), keys)
  {
    forall j | 0 <= j < |keys| ensures Press(keys)(keys[j]) == keys[NextPos(j, |keys|)] {
      NextKeyMoves(keys, j);
    }
  }

  /** Such a step takes the key at `k` to the key at `k + n` while that is still a position. */
  lemma {:induction false} IterateForward<K>(f: K -> K, keys: seq<K>, k: nat, n: nat)
    requires MovesOn(f, keys) && k + n < |keys|
    ensures Iterate(f, keys[k], n) == keys[k + n]
  {
    if n > 0 {
      IterateForward(f, keys, k, n - 1);
      assert f(keys[k + n - 1]) == keys[NextPos(k + n - 1, |keys|)];
    }
  }

  /** `a + b` steps are `a` steps followed by `b` steps. */
  lemma {:induction false} IterateAdd<K>(f: K -> K, x: K, a: nat, b: nat)
    ensures Iterate(f, x, a + b) == Iterate(f, Iterate(f, x, a), b)
  {
    if b > 0 {
      IterateAdd(f, x, a, b - 1);
      assert Iterate(f, x, a + b) == f(Iterate(f, x, a + b - 1));
    }
  }

  /** Such a step takes the key at `k` round the cycle by `n <= |keys|` positions. */
  lemma IterateRound<K>(f: K -> K, keys: seq<K>, k: nat, n: nat)
    requires MovesOn(f, keys) && k < |keys| && n <= |keys|
    ensures Iterate(f, keys[k], n) == keys[if k + n < |keys| then k + n else k + n - |keys|]
  {
    var m := |keys|;
    if k + n < m {
      IterateForward(f, keys, k, n);
    } else {
      var a, c := m - 1 - k, k + n - m;
      IterateForward(f, keys, k, a);
      assert f(keys[m - 1]) == keys[NextPos(m - 1, m)];
      assert Iterate(f, keys[k], a + 1) == keys[0];
      IterateForward(f, keys, 0, c);
      IterateAdd(f, keys[k], a + 1, c);
      assert a + 1 + c == n;
    }
  }

  /** From the key at position `k`, `n <= |keys|` presses move `n` places round the cycle. */
  lemma CycleMoves<K>(keys: seq<K>, k: nat, n: nat)
    requires AllDifferent(keys) && k < |keys| && n <= |keys|
    ensures CycleTimes(keys, keys[k], n) == keys[if k + n < |keys| then k + n else k + n - |keys|]
  {
    PressMovesOn(keys);
    IterateRound(Press(keys), keys, k, n);
  }

  /** A full round of presses from a key comes back to it. */
  lemma FullCycleReturns<K>(keys: seq<K>, x: K)
    requires AllDifferent(keys) && x in keys
    ensures CycleTimes(keys, x, |keys|) == x
  {
    CycleMoves(keys, IndexOf(keys, x), |keys|);
  }

  /** `Object.keys(brandIcons)`, in the order the icon table is written. */
  const IconKeys: seq<string> := ["Music", "AudioLines", "Mic2", "Disc", "Music2", "Languages", "Piano"]

  lemma IconKeysDiffer()
    ensures AllDifferent(IconKeys) && |IconKeys| == 7
  {
  }

  /** The icon after one press. */
  function NextIcon(icon: string): (next: string)
    ensures next in IconKeys
    ensures icon !in IconKeys ==> next == "Music"
  {
    NextKey(IconKeys, icon)
  }

  /** `cycleIcon`: stores the next icon and nothing else. */
  function CycleIcon(s: AppState): (r: AppState)
    ensures r == s.(brandSettings := s.brandSettings.(icon := NextIcon(s.brandSettings.icon)))
  {
    Store.UpdateBrandSettings(s, BrandPatch(None, Some(NextIcon(s.brandSettings.icon))))
  }

  /** A press moves a known icon to the next key, the last one back to the first. */
  lemma NextIconMoves(k: nat)
    requires k < 7
    ensures NextIcon(IconKeys[k]) == IconKeys[if k < 6 then k + 1 else 0]
  {
    IconKeysDiffer();
    NextKeyMoves(IconKeys, k);
  }

  /** Seven presses from a known icon come back to it. */
  lemma SevenCyclesReturn(icon: string)
    requires icon in IconKeys
    ensures CycleTimes(IconKeys, icon, 7) == icon
  {
    IconKeysDiffer();
    FullCycleReturns(IconKeys, icon);
  }

  /** `brandIcons[brand.icon] || Music`: the icon drawn for a stored icon name. */
  function RenderedIcon(icon: string): (drawn: string)
    ensures drawn in IconKeys
    ensures icon in IconKeys ==> drawn == icon
    ensures icon !in IconKeys ==> drawn == "Music"
  {
    if icon in IconKeys then icon else "Music"
  }

  /** After a press the drawn icon is the stored one, so an unknown icon is drawn as the icon one press gives. */
  lemma CycledIconIsDrawn(s: AppState)
    ensures RenderedIcon(CycleIcon(s).brandSettings.icon) == CycleIcon(s).brandSettings.icon
    ensures s.brandSettings.icon !in IconKeys ==> CycleIcon(s).brandSettings.icon == RenderedIcon(s.brandSettings.icon)
  {
  }

  /** The brand-name edit: the typed name and whether the name is being edited. */
  datatype BrandUi = BrandUi(tempBrandName: string, isEditingBrand: bool)

  /** `handleBrandNameSave`: stores the typed name, leaves the icon alone, and ends editing. */
  function HandleBrandNameSave(s: AppState, ui: BrandUi): (r: (AppState, BrandUi))
    ensures r.0 == s.(brandSettings := BrandSettings(ui.tempBrandName, s.brandSettings.icon))
    ensures r.1 == ui.(isEditingBrand := false)
  {
    (Store.UpdateBrandSettings(s, BrandPatch(Some(ui.tempBrandName), None)), ui.(isEditingBrand := false))
  }
}
