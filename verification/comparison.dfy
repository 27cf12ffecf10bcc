/**
 * The app-wide state of src/context/ClimateContext.tsx as pure reducers:
 * the comparison list (add without duplicates, remove by id, clear), the
 * settings (nested merge of a partial update, reset to the defaults) and
 * the scoring of one product under the current settings.
 */
module Comparison {
  import opened Types
  import opened Climate

  // ---------------------------------------------------------------------
  // Comparison list
  // ---------------------------------------------------------------------

  /** Some product of the list has id `id`. */
  predicate HasId(list: seq<Product>, id: string) {
    exists i :: 0 <= i < |list| && list[i].id == id
  }

  /** No two products of the list share an id. */
  predicate IdsDistinct(list: seq<Product>) {
    forall i, j :: 0 <= i < j < |list| ==> list[i].id != list[j].id
  }

  /** `addProduct`: the list is returned as it is when a product with the
      same id is already in it; otherwise the product is appended. */
  function AddProduct(list: seq<Product>, p: Product): (r: seq<Product>)
    ensures HasId(list, p.id) ==> r == list
    ensures !HasId(list, p.id) ==> r == list + [p]
    ensures HasId(r, p.id)
  {
    if HasId(list, p.id) then list
    else
      assert (list + [p])[|list|] == p;
      list + [p]
  }

  /** Adding keeps the ids of the list pairwise distinct. */
  lemma AddKeepsIdsDistinct(list: seq<Product>, p: Product)
    requires IdsDistinct(list)
    ensures IdsDistinct(AddProduct(list, p))
  {
    var r := AddProduct(list, p);
    if !HasId(list, p.id) {
      forall i, j | 0 <= i < j < |r| ensures r[i].id != r[j].id {
        if j == |list| {
          assert r[i] == list[i];
        }
      }
    }
  }

  /** Adding the same product twice is adding it once. */
  lemma AddIdempotent(list: seq<Product>, p: Product)
    ensures AddProduct(AddProduct(list, p), p) == AddProduct(list, p)
  {
  }

  /** `removeProduct`: the products whose id is not `id`, in list order. */
  function RemoveProduct(list: seq<Product>, id: string): (r: seq<Product>)
    ensures |r| <= |list|
    ensures forall i :: 0 <= i < |r| ==> r[i].id != id
    ensures forall q :: q in r <==> q in list && q.id != id
  {
    if list == [] then []
    else if list[0].id == id then RemoveProduct(list[1..], id)
    else [list[0]] + RemoveProduct(list[1..], id)
  }

  /** Removing from a concatenation removes from each part: the kept
      products stay in their relative order. */
  lemma {:induction false} RemoveAppend(a: seq<Product>, b: seq<Product>, id: string)
    ensures RemoveProduct(a + b, id) == RemoveProduct(a, id) + RemoveProduct(b, id)
  {
    if a == [] {
      assert a + b == b;
    } else {
      assert (a + b)[1..] == a[1..] + b;
      RemoveAppend(a[1..], b, id);
    }
  }

  /** Removing an id that is not in the list changes nothing. */
  lemma {:induction false} RemoveAbsent(list: seq<Product>, id: string)
    requires !HasId(list, id)
    ensures RemoveProduct(list, id) == list
  {
    if list != [] {
      assert !HasId(list[1..], id) by {
        forall i | 0 <= i < |list[1..]| ensures list[1..][i].id != id {
          assert list[1..][i] == list[i + 1];
        }
      }
      RemoveAbsent(list[1..], id);
      assert list[0].id != id;
    }
  }

  /** Adding a product that is not yet listed and then removing its id gives
      back the original list. */
  lemma AddThenRemove(list: seq<Product>, p: Product)
    requires !HasId(list, p.id)
    ensures RemoveProduct(AddProduct(list, p), p.id) == list
  {
    RemoveAppend(list, [p], p.id);
    RemoveAbsent(list, p.id);
    assert RemoveProduct([p], p.id) == [];
  }

  /** Removing keeps the ids of the list pairwise distinct. */
  lemma {:induction false} RemoveKeepsIdsDistinct(list: seq<Product>, id: string)
    requires IdsDistinct(list)
    ensures IdsDistinct(RemoveProduct(list, id))
  {
    if list != [] {
      assert IdsDistinct(list[1..]) by {
        forall i, j | 0 <= i < j < |list[1..]| ensures list[1..][i].id != list[1..][j].id {
          assert list[1..][i] == list[i + 1] && list[1..][j] == list[j + 1];
        }
      }
      RemoveKeepsIdsDistinct(list[1..], id);
      var rest := RemoveProduct(list[1..], id);
      if list[0].id != id {
        forall k | 0 <= k < |rest| ensures rest[k].id != list[0].id {
          assert rest[k] in list[1..];
          var m :| 0 <= m < |list[1..]| && list[1..][m] == rest[k];
          assert list[m + 1] == rest[k];
        }
        var r := [list[0]] + rest;
        forall i, j | 0 <= i < j < |r| ensures r[i].id != r[j].id {
          if i == 0 {
            assert r[j] == rest[j - 1];
          } else {
            assert r[i] == rest[i - 1] && r[j] == rest[j - 1];
          }
        }
      }
    }
  }

  /** `clearList` */
  function ClearList(): (r: seq<Product>)
    ensures |r| == 0
  {
    []
  }

  // ---------------------------------------------------------------------
  // Settings
  // ---------------------------------------------------------------------

  /** A `Partial<ClimateSettings>`: each part may be left out. */
  datatype SettingsUpdate = SettingsUpdate(
    packaging: Option<map<PackagingType, real>>,
    transport: Option<map<TransportMethod, real>>,
    production: Option<map<ProductionMethod, real>>,
    thresholds: Option<Thresholds>)

  /** `{ ...prev, ...(update || {}) }` for one weight table: the update's
      keys win, every other key keeps its previous value. */
  function Merge<K, V>(prev: map<K, V>, update: Option<map<K, V>>): (r: map<K, V>)
    ensures r.Keys == prev.Keys + (if update.Some? then update.value.Keys else {})
    ensures forall k :: k in r ==> r[k] == if update.Some? && k in update.value then update.value[k] else prev[k]
  {
    if update.Some? then prev + update.value else prev
  }

  /** `updateSettings`: a nested merge of the three weight tables; the
      thresholds are replaced when the update has them. */
  function UpdateSettings(prev: ClimateSettings, u: SettingsUpdate): (s: ClimateSettings)
    ensures s.packaging.Keys == prev.packaging.Keys + (if u.packaging.Some? then u.packaging.value.Keys else {})
    ensures s.transport.Keys == prev.transport.Keys + (if u.transport.Some? then u.transport.value.Keys else {})
    ensures s.production.Keys == prev.production.Keys + (if u.production.Some? then u.production.value.Keys else {})
    ensures forall t :: t in prev.packaging && (u.packaging.None? || t !in u.packaging.value) ==> s.packaging[t] == prev.packaging[t]
    ensures forall m :: m in prev.transport && (u.transport.None? || m !in u.transport.value) ==> s.transport[m] == prev.transport[m]
    ensures forall m :: m in prev.production && (u.production.None? || m !in u.production.value) ==> s.production[m] == prev.production[m]
    ensures forall t :: u.packaging.Some? && t in u.packaging.value ==> s.packaging[t] == u.packaging.value[t]
    ensures forall m :: u.transport.Some? && m in u.transport.value ==> s.transport[m] == u.transport.value[m]
    ensures forall m :: u.production.Some? && m in u.production.value ==> s.production[m] == u.production.value[m]
    ensures s.thresholds == if u.thresholds.Some? then u.thresholds.value else prev.thresholds
  {
    ClimateSettings(
      Merge(prev.packaging, u.packaging),
      Merge(prev.transport, u.transport),
      Merge(prev.production, u.production),
      if u.thresholds.Some? then u.thresholds.value else prev.thresholds)
  }

  /** A merge never loses a key, so complete settings stay complete. */
  lemma UpdateKeepsWellTyped(prev: ClimateSettings, u: SettingsUpdate)
    requires WellTyped(prev)
    ensures WellTyped(UpdateSettings(prev, u))
  {
  }

  /** An update with nothing in it changes nothing. */
  lemma EmptyUpdateIsIdentity(prev: ClimateSettings)
    ensures UpdateSettings(prev, SettingsUpdate(None, None, None, None)) == prev
  {
  }

  /** Updating only the thresholds leaves every score as it was. */
  lemma ThresholdUpdateKeepsScores(prev: ClimateSettings, th: Thresholds, p: Product)
    requires HasTransportRates(prev)
    ensures HasTransportRates(UpdateSettings(prev, SettingsUpdate(None, None, None, Some(th))))
    ensures ClimateScore(p, UpdateSettings(prev, SettingsUpdate(None, None, None, Some(th)))) == ClimateScore(p, prev)
  {
    assert UpdateSettings(prev, SettingsUpdate(None, None, None, Some(th))) == prev.(thresholds := th);
    ThresholdsIgnored(p, prev, th);
  }

  /** `resetSettings`: back to the defaults, which are complete. */
  function ResetSettings(): (s: ClimateSettings)
    ensures WellTyped(s)
    ensures s == DefaultSettings
  {
    DefaultSettingsWellTyped();
    DefaultSettings
  }

  /** From complete settings, an update that carries every default table
      and the default thresholds lands exactly where a reset does. */
  lemma {:induction false} FullDefaultUpdateIsReset(prev: ClimateSettings)
    requires WellTyped(prev)
    ensures UpdateSettings(prev, SettingsUpdate(Some(DefaultSettings.packaging), Some(DefaultSettings.transport),
                                                Some(DefaultSettings.production), Some(DefaultSettings.thresholds)))
            == ResetSettings()
  {
    DefaultSettingsWellTyped();
  }

  // ---------------------------------------------------------------------
  // Scoring one product
  // ---------------------------------------------------------------------

  /** `getProductWithScore`: the product with its score under the current
      settings and the badge for that score. */
  function ProductWithScoreOf(p: Product, s: ClimateSettings): (r: ProductWithScore)
    requires HasTransportRates(s)
    ensures r.product == p
    ensures 0 <= r.climateScore <= 100
    ensures r.climateScore == ClimateScore(p, s)
    ensures r.badge == Green <==> r.climateScore >= 66
    ensures r.badge == Red <==> r.climateScore < 33
  {
    var score := ClimateScore(p, s);
    ProductWithScore(p, score, Badge(score))
  }
}
