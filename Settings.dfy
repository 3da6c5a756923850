/**
  The settings page (`Settings`): a table of boolean flags grouped by
  category (`notifications`, `privacy`, `discovery`), and `updateSetting`,
  which sets one flag and keeps the rest of the table.
 */
module Settings {
  /** `category -> key -> flag`. */
  type Table = map<string, map<string, bool>>

  /** The table the page starts with. */
  const Initial: Table := map[
    "notifications" := map["newMatches" := true, "messages" := true, "promotions" := false, "push" := true],
    "privacy" := map["showDistance" := true, "showAge" := true, "incognito" := false, "readReceipts" := true],
    "discovery" := map["globalMode" := true, "showMeOn" := true]
  ]

  /** `prev[category]`, where spreading a missing category spreads nothing. */
  function Row(t: Table, c: string): map<string, bool> {
    if c in t then t[c] else map[]
  }

  /**
    `{ ...prev, [c]: { ...prev[c], [k]: v } }`: flag `k` of category `c`
    reads `v`; every other flag of `c`, and every other category, is as
    before; the only key that can appear is `k` in `c`, and `c` itself.
   */
  function Update(t: Table, c: string, k: string, v: bool): (u: Table)
    ensures c in u && k in u[c] && u[c][k] == v
    ensures u.Keys == t.Keys + {c}
    ensures u[c].Keys == Row(t, c).Keys + {k}
    ensures forall k' :: k' in Row(t, c) && k' != k ==> u[c][k'] == Row(t, c)[k']
    ensures forall c' :: c' in t && c' != c ==> u[c'] == t[c']
  {
    t[c := Row(t, c)[k := v]]
  }

  /** Applying the same update twice is applying it once. */
  lemma UpdateIdempotent(t: Table, c: string, k: string, v: bool)
    ensures Update(Update(t, c, k, v), c, k, v) == Update(t, c, k, v)
  {
    var u := Update(t, c, k, v);
    assert Row(u, c)[k := v] == Row(u, c);
  }

  /** Updates of two different flags can be made in either order. */
  lemma UpdatesCommute(t: Table, c1: string, k1: string, v1: bool, c2: string, k2: string, v2: bool)
    requires c1 != c2 || k1 != k2
    ensures Update(Update(t, c1, k1, v1), c2, k2, v2) == Update(Update(t, c2, k2, v2), c1, k1, v1)
  {
    if c1 == c2 {
      SameCategoryCommute(t, c1, k1, v1, k2, v2);
    } else {
      OtherCategoriesCommute(t, c1, k1, v1, c2, k2, v2);
    }
  }

  lemma SameCategoryCommute(t: Table, c: string, k1: string, v1: bool, k2: string, v2: bool)
    requires k1 != k2
    ensures Update(Update(t, c, k1, v1), c, k2, v2) == Update(Update(t, c, k2, v2), c, k1, v1)
  {
    UpdateTwice(t, c, k1, v1, k2, v2);
    UpdateTwice(t, c, k2, v2, k1, v1);
    RowUpdatesCommute(Row(t, c), k1, v1, k2, v2);
  }

  lemma RowUpdatesCommute(r: map<string, bool>, k1: string, v1: bool, k2: string, v2: bool)
    requires k1 != k2
    ensures r[k1 := v1][k2 := v2] == r[k2 := v2][k1 := v1]
  {
    var a, b := r[k1 := v1][k2 := v2], r[k2 := v2][k1 := v1];
    assert a.Keys == b.Keys;
    assert forall k :: k in a ==> a[k] == b[k];
  }

  /** Two updates in one category update its row twice. */
  lemma UpdateTwice(t: Table, c: string, k1: string, v1: bool, k2: string, v2: bool)
    ensures Update(Update(t, c, k1, v1), c, k2, v2) == t[c := Row(t, c)[k1 := v1][k2 := v2]]
  {
    assert Row(Update(t, c, k1, v1), c) == Row(t, c)[k1 := v1];
  }

  lemma OtherCategoriesCommute(t: Table, c1: string, k1: string, v1: bool, c2: string, k2: string, v2: bool)
    requires c1 != c2
    ensures Update(Update(t, c1, k1, v1), c2, k2, v2) == Update(Update(t, c2, k2, v2), c1, k1, v1)
  {
    var r1, r2 := Row(t, c1)[k1 := v1], Row(t, c2)[k2 := v2];
    assert Row(Update(t, c1, k1, v1), c2) == Row(t, c2);
    assert Row(Update(t, c2, k2, v2), c1) == Row(t, c1);
    assert t[c1 := r1][c2 := r2] == t[c2 := r2][c1 := r1];
  }

  /** The table has flag `k` in category `c`. */
  predicate HasFlag(t: Table, c: string, k: string) {
    c in t && k in t[c]
  }

  /**
    The defaults: the table holds exactly the ten flags of the three
    categories, and a flag is off exactly for promotional notifications and
    incognito mode.
   */
  lemma InitialDefaults()
    ensures Initial.Keys == {"notifications", "privacy", "discovery"}
    ensures Initial["notifications"].Keys == {"newMatches", "messages", "promotions", "push"}
    ensures Initial["privacy"].Keys == {"showDistance", "showAge", "incognito", "readReceipts"}
    ensures Initial["discovery"].Keys == {"globalMode", "showMeOn"}
    ensures forall c, k :: HasFlag(Initial, c, k) ==>
      (!Initial[c][k] <==> (c, k) == ("notifications", "promotions") || (c, k) == ("privacy", "incognito"))
  {
  }

  class SettingsPanel {
    var settings: Table

    /** `useState({...})` with the defaults. */
    constructor ()
      ensures settings == Initial
    {
      settings := Initial;
    }

    /** `updateSetting(category, key, value)`. */
    method UpdateSetting(category: string, key: string, value: bool)
      modifies this
      ensures settings == Update(old(settings), category, key, value)
    {
      settings := settings[category := Row(settings, category)[key := value]];
    }
  }
}
