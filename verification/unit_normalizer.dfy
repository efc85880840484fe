/** The unit normalisation of `src/main.py`: the kilobyte and gigabyte conversions and
    `normalize_data_uom`, which, for eight value/unit field pairs of the usage record, adds
    the value in megabytes under the value's name prefixed with `N-`. Floating-point
    numbers are modelled as `real`. */
module UnitNormalizer {
  import opened Wrappers
  import opened Python

  /** `gb_to_mb`. */
  function GbToMb(gb: real): (mb: real)
    ensures mb / 1024.0 == gb
  {
    1024.0 * gb
  }

  /** `kb_to_mb`. */
  function KbToMb(kb: real): (mb: real)
    ensures mb * 1024.0 == kb
  {
    (1.0 / 1024.0) * kb
  }

  /** `mb_to_gb`. */
  function MbToGb(mb: real): (gb: real)
    ensures gb * 1024.0 == mb
  {
    mb / 1024.0
  }

  /** The conversions are linear maps. */
  lemma ConversionsAreLinear(a: real, x: real, y: real)
    ensures KbToMb(a * x + y) == a * KbToMb(x) + KbToMb(y)
    ensures GbToMb(a * x + y) == a * GbToMb(x) + GbToMb(y)
    ensures KbToMb(2.0 * x) == 2.0 * KbToMb(x) && GbToMb(2.0 * x) == 2.0 * GbToMb(x)
  {
  }

  /** Gigabytes to megabytes and back is the identity, in both orders. */
  lemma GigabyteRoundTrip(x: real)
    ensures MbToGb(GbToMb(x)) == x && GbToMb(MbToGb(x)) == x
  {
  }

  /** The conversion rule shared by `normalize_data_uom` and the bar-chart loop: a `'KB'`
      figure is divided by 1024, a `'GB'` figure multiplied by 1024 (both through
      `float()`), and under any other unit the figure is kept as it is. */
  function ToMegabytes(unit: Value, amount: Value): (r: Result<Value, Exception>)
    ensures unit == PyStr("KB") || unit == PyStr("GB") ==> (r.Ok? <==> ToFloat(amount).Ok?)
    ensures unit == PyStr("KB") && r.Ok? ==> r.value.PyFloat? && r.value.f * 1024.0 == ToFloat(amount).value
    ensures unit == PyStr("GB") && r.Ok? ==> r.value.PyFloat? && r.value.f / 1024.0 == ToFloat(amount).value
    ensures unit != PyStr("KB") && unit != PyStr("GB") ==> r == Ok(amount)
    ensures r.Err? ==> r.error == ToFloat(amount).error
  {
    if unit == PyStr("KB") then
      match ToFloat(amount)
      case Ok(x) => Ok(PyFloat(KbToMb(x)))
      case Err(e) => Err(e)
    else if unit == PyStr("GB") then
      match ToFloat(amount)
      case Ok(x) => Ok(PyFloat(GbToMb(x)))
      case Err(e) => Err(e)
    else Ok(amount)
  }

  /** One entry of `values_to_normalize`: the key of a figure and the key of its unit. */
  datatype Field = Field(value: string, unit: string)

  /** `values_to_normalize`, in its iteration order. */
  const Fields: seq<Field> := [
    Field("usage", "uom"),
    Field("freeUnits", "freeUnitsUOM"),
    Field("totalUsage", "totalUsageUOM"),
    Field("totalFreeUnits", "totalFreeUnitsUOM"),
    Field("usageDifference", "differenceUOM"),
    Field("dataShareUnits", "dataShareUnitsUOM"),
    Field("usageDataShare", "usageDataShareUOM"),
    Field("freeUsage", "freeUsageUOM")
  ]

  /** Where the normalised figure of a field is written: `'N-' + value`. */
  function NormalizedKey(f: Field): string
  {
    "N-" + f.value
  }

  predicate IsNormalizedKey(k: string)
  {
    |k| >= 2 && k[0] == 'N' && k[1] == '-'
  }

  /** Field tables the loop handles correctly: no raw key looks like a normalised key, and
      no two fields share a figure key. */
  predicate WellFormed(fs: seq<Field>)
  {
    && (forall i :: 0 <= i < |fs| ==> !IsNormalizedKey(fs[i].value) && !IsNormalizedKey(fs[i].unit))
    && (forall i, j :: 0 <= i < j < |fs| ==> fs[i].value != fs[j].value)
  }

  lemma FieldsWellFormed()
    ensures WellFormed(Fields)
  {
    forall i | 0 <= i < |Fields|
      ensures !IsNormalizedKey(Fields[i].value) && !IsNormalizedKey(Fields[i].unit)
    {
      assert Fields[i].value[0] != 'N' && Fields[i].unit[0] != 'N';
    }
    forall i, j | 0 <= i < j < |Fields|
      ensures Fields[i].value != Fields[j].value
    {
      var u, v := Fields[i].value, Fields[j].value;
      assert |u| != |v| || u[0] != v[0] || u[|u| - 1] != v[|v| - 1];
    }
  }

  lemma NormalizedKeyIs(f: Field)
    ensures IsNormalizedKey(NormalizedKey(f))
    ensures |NormalizedKey(f)| == |f.value| + 2 && NormalizedKey(f)[2..] == f.value
  {
  }

  /** One iteration of the loop of `normalize_data_uom`. */
  function NormalizeStep(d: Dict, f: Field): (r: Result<Dict, Exception>)
    ensures r.Err? <==> StepFails(d, f)
    ensures r.Ok? ==> FieldNormalized(d, r.value, f)
    ensures r.Ok? ==> forall k :: k != NormalizedKey(f) ==> Untouched(d, r.value, k)
  {
    if f.unit !in d then Err(KeyError(f.unit))
    else if d[f.unit] == PyNone then Ok(d)
    else if f.value !in d then Err(KeyError(f.value))
    else
      match ToMegabytes(d[f.unit], d[f.value])
      case Ok(mb) => Ok(d[NormalizedKey(f) := mb])
      case Err(e) => Err(e)
  }

  /** The loop of `normalize_data_uom` over the fields `fs`, in order; the first exception
      ends it. */
  function NormalizeFields(d: Dict, fs: seq<Field>): (r: Result<Dict, Exception>)
    ensures r.Ok? ==> forall k :: k in d ==> k in r.value
    decreases |fs|
  {
    if fs == [] then Ok(d)
    else
      match NormalizeFields(d, fs[..|fs| - 1])
      case Ok(acc) => NormalizeStep(acc, fs[|fs| - 1])
      case Err(e) => Err(e)
  }

  /** What the field `f` contributes when the record is `d`: the step fails exactly when
      the unit key is missing, or the unit is set and the figure is missing or not a
      number under `'KB'`/`'GB'`. */
  predicate StepFails(d: Dict, f: Field)
  {
    f.unit !in d || (d[f.unit] != PyNone && (f.value !in d || ToMegabytes(d[f.unit], d[f.value]).Err?))
  }

  /** `normalize_data_uom(usage_dict)`. The dictionary the source updates in place is the
      local `acc`, returned at the end; the caller rebinds its variable to it. */
  method NormalizeDataUom(usage: Dict) returns (r: Result<Dict, Exception>)
    ensures r == NormalizeFields(usage, Fields)
  {
    r := NormalizeEach(usage, Fields);
  }

  /** The loop of `normalize_data_uom` over the field table `fs`. */
  method NormalizeEach(usage: Dict, fs: seq<Field>) returns (r: Result<Dict, Exception>)
    ensures r == NormalizeFields(usage, fs)
  {
    var acc := usage;
    var i := 0;
    while i < |fs|
      invariant 0 <= i <= |fs|
      invariant NormalizeFields(usage, fs[..i]) == Ok(acc)
    {
      assert fs[..i + 1][..i] == fs[..i];
      var next := NormalizeEntry(acc, fs[i]);
      if next.Err? {
        ErrorPersists(usage, fs, i + 1);
        return next;
      }
      acc := next.value;
      i := i + 1;
    }
    assert fs[..i] == fs;
    r := Ok(acc);
  }

  /** One iteration of the loop of `normalize_data_uom`, updating the record in place:
      reading a missing unit or figure raises `KeyError`, and `float()` of a figure that is
      not a number raises. */
  method NormalizeEntry(usageDict: Dict, f: Field) returns (r: Result<Dict, Exception>)
    ensures r == NormalizeStep(usageDict, f)
  {
    var acc := usageDict;
    if f.unit !in acc {
      return Err(KeyError(f.unit));
    }
    var currentUom := acc[f.unit];
    if currentUom != PyNone && currentUom == PyStr("KB") {
      if f.value !in acc {
        return Err(KeyError(f.value));
      }
      var x :- ToFloat(acc[f.value]);
      acc := acc[NormalizedKey(f) := PyFloat(KbToMb(x))];
    } else if currentUom != PyNone && currentUom == PyStr("GB") {
      if f.value !in acc {
        return Err(KeyError(f.value));
      }
      var x :- ToFloat(acc[f.value]);
      acc := acc[NormalizedKey(f) := PyFloat(GbToMb(x))];
    } else if currentUom != PyNone {
      if f.value !in acc {
        return Err(KeyError(f.value));
      }
      acc := acc[NormalizedKey(f) := acc[f.value]];
    }
    r := Ok(acc);
  }

  /** Once a prefix of the loop has raised, the whole loop raises the same exception. */
  lemma {:induction false} ErrorPersists(d: Dict, fs: seq<Field>, n: nat)
    requires n <= |fs|
    requires NormalizeFields(d, fs[..n]).Err?
    ensures NormalizeFields(d, fs) == NormalizeFields(d, fs[..n])
    decreases |fs| - n
  {
    if n < |fs| {
      assert fs[..n + 1][..n] == fs[..n];
      ErrorPersists(d, fs, n + 1);
    } else {
      assert fs[..n] == fs;
    }
  }

  /** The normalised keys of a field table. */
  function NormalizedKeys(fs: seq<Field>): set<string>
  {
    set j | 0 <= j < |fs| :: NormalizedKey(fs[j])
  }

  /** The key `k` holds the same entry, or is absent, in both dictionaries. */
  predicate Untouched(d: Dict, n: Dict, k: string)
  {
    (k in n <==> k in d) && (k in n ==> n[k] == d[k])
  }

  /** What normalisation leaves under the normalised key of `f`: nothing new when the unit
      is `None`, and otherwise the figure converted to megabytes. */
  predicate FieldNormalized(d: Dict, n: Dict, f: Field)
  {
    && f.unit in d
    && (d[f.unit] == PyNone ==> Untouched(d, n, NormalizedKey(f)))
    && (d[f.unit] != PyNone ==>
          f.value in d && NormalizedKey(f) in n && ToMegabytes(d[f.unit], d[f.value]) == Ok(n[NormalizedKey(f)]))
  }

  lemma DistinctNormalizedKeys(f: Field, g: Field)
    requires f.value != g.value
    ensures NormalizedKey(f) != NormalizedKey(g)
  {
    NormalizedKeyIs(f);
    NormalizedKeyIs(g);
  }

  /** The loop invariant of `normalize_data_uom`, for any well-formed field table: it
      changes no key outside the table's normalised keys, no field raises, and every field's
      normalised key holds what `FieldNormalized` says. */
  lemma {:induction false} NormalizeFieldsSpec(d: Dict, fs: seq<Field>, n: Dict)
    requires WellFormed(fs)
    requires NormalizeFields(d, fs) == Ok(n)
    ensures forall k :: k in d ==> k in n
    ensures forall k :: k !in NormalizedKeys(fs) ==> Untouched(d, n, k)
    ensures forall j :: 0 <= j < |fs| ==> !StepFails(d, fs[j])
    ensures forall j :: 0 <= j < |fs| ==> FieldNormalized(d, n, fs[j])
    decreases |fs|
  {
    if fs == [] {
      return;
    }
    var p, f := fs[..|fs| - 1], fs[|fs| - 1];
    assert WellFormed(p);
    var acc := NormalizeFields(d, p).value;
    NormalizeFieldsSpec(d, p, acc);
    assert n == NormalizeStep(acc, f).value;
    NormalizedKeyIs(f);
    forall j | 0 <= j < |p|
      ensures NormalizedKey(p[j]) != NormalizedKey(f)
    {
      assert p[j] == fs[j];
      DistinctNormalizedKeys(p[j], f);
    }
    assert NormalizedKey(f) !in NormalizedKeys(p);
    // the raw keys of `f` are the same in `acc` as in `d`
    assert !IsNormalizedKey(f.unit) && !IsNormalizedKey(f.value);
    assert Untouched(d, acc, f.unit) && Untouched(d, acc, f.value);
    assert Untouched(d, acc, NormalizedKey(f));
    forall k | k !in NormalizedKeys(fs)
      ensures Untouched(d, n, k)
    {
      assert NormalizedKeys(fs) == NormalizedKeys(p) + {NormalizedKey(f)};
    }
    forall j | 0 <= j < |fs|
      ensures !StepFails(d, fs[j]) && FieldNormalized(d, n, fs[j])
    {
      if j < |p| {
        assert fs[j] == p[j];
        assert FieldNormalized(d, acc, p[j]);
        assert Untouched(acc, n, NormalizedKey(p[j]));
      }
    }
  }

  /** `normalize_data_uom` adds keys and never removes one; it changes no key that does not
      start with `N-` (so raw figures and their unit keys keep their values), and the only
      keys it can add or change are the eight normalised keys. */
  lemma NormalizeWritesOnlyNormalizedKeys(d: Dict, n: Dict)
    requires NormalizeFields(d, Fields) == Ok(n)
    ensures forall k :: k in d ==> k in n
    ensures forall k :: !IsNormalizedKey(k) ==> Untouched(d, n, k)
    ensures forall k :: k in n && (k !in d || n[k] != d[k]) ==> k in NormalizedKeys(Fields)
  {
    FieldsWellFormed();
    NormalizeFieldsSpec(d, Fields, n);
    forall k | !IsNormalizedKey(k)
      ensures Untouched(d, n, k)
    {
      if k in NormalizedKeys(Fields) {
        var j :| 0 <= j < |Fields| && k == NormalizedKey(Fields[j]);
        NormalizedKeyIs(Fields[j]);
      }
    }
  }

  /** The entry `normalize_data_uom` leaves under `'N-' + value` for each listed field: the
      figure divided by 1024 under `'KB'`, multiplied by 1024 under `'GB'`, copied under any
      other unit, and no new entry when the unit is `None`. */
  lemma NormalizeSetsField(d: Dict, n: Dict, j: int)
    requires NormalizeFields(d, Fields) == Ok(n)
    requires 0 <= j < |Fields|
    ensures var f := Fields[j]; var k := NormalizedKey(f);
      && f.unit in d
      && (d[f.unit] == PyStr("KB") ==>
            f.value in d && ToFloat(d[f.value]).Ok? && k in n && n[k] == PyFloat(ToFloat(d[f.value]).value / 1024.0))
      && (d[f.unit] == PyStr("GB") ==>
            f.value in d && ToFloat(d[f.value]).Ok? && k in n && n[k] == PyFloat(ToFloat(d[f.value]).value * 1024.0))
      && (d[f.unit] != PyNone && d[f.unit] != PyStr("KB") && d[f.unit] != PyStr("GB") ==>
            f.value in d && k in n && n[k] == d[f.value])
      && (d[f.unit] == PyNone ==> Untouched(d, n, k))
  {
    FieldsWellFormed();
    NormalizeFieldsSpec(d, Fields, n);
    assert FieldNormalized(d, n, Fields[j]);
  }

  /** `normalize_data_uom` raises exactly when some listed field raises on its own: its unit
      key is missing, or its unit is set and its figure is missing or, under `'KB'`/`'GB'`,
      not a number. */
  lemma {:induction false} NormalizeRaisesIff(d: Dict)
    ensures NormalizeFields(d, Fields).Err? <==> exists j :: 0 <= j < |Fields| && StepFails(d, Fields[j])
  {
    FieldsWellFormed();
    RaisesIff(d, Fields);
  }

  lemma {:induction false} RaisesIff(d: Dict, fs: seq<Field>)
    requires WellFormed(fs)
    ensures NormalizeFields(d, fs).Err? <==> exists j :: 0 <= j < |fs| && StepFails(d, fs[j])
    decreases |fs|
  {
    if NormalizeFields(d, fs).Ok? {
      NormalizeFieldsSpec(d, fs, NormalizeFields(d, fs).value);
    } else {
      var p, f := fs[..|fs| - 1], fs[|fs| - 1];
      assert WellFormed(p);
      RaisesIff(d, p);
      if NormalizeFields(d, p).Err? {
        var j :| 0 <= j < |p| && StepFails(d, p[j]);
        assert fs[j] == p[j];
      } else {
        var acc := NormalizeFields(d, p).value;
        NormalizeFieldsSpec(d, p, acc);
        assert Untouched(d, acc, f.unit) && Untouched(d, acc, f.value);
        assert StepFails(d, fs[|fs| - 1]);
      }
    }
  }

  /** `normalize_data_uom` is idempotent: it reads only raw keys and writes only `N-` keys,
      so a second pass writes every normalised entry again with the value it already has. */
  lemma NormalizeIdempotent(d: Dict, n: Dict)
    requires NormalizeFields(d, Fields) == Ok(n)
    ensures NormalizeFields(n, Fields) == Ok(n)
  {
    FieldsWellFormed();
    NormalizeFieldsSpec(d, Fields, n);
    NormalizeWritesOnlyNormalizedKeys(d, n);
    RenormalizePrefix(d, n, Fields, |Fields|);
    assert Fields[..|Fields|] == Fields;
  }

  lemma {:induction false} RenormalizePrefix(d: Dict, n: Dict, fs: seq<Field>, m: nat)
    requires m <= |fs|
    requires WellFormed(fs)
    requires forall k :: !IsNormalizedKey(k) ==> Untouched(d, n, k)
    requires forall j :: 0 <= j < |fs| ==> FieldNormalized(d, n, fs[j])
    ensures NormalizeFields(n, fs[..m]) == Ok(n)
  {
    if m > 0 {
      RenormalizePrefix(d, n, fs, m - 1);
      assert fs[..m][..m - 1] == fs[..m - 1];
      var f := fs[m - 1];
      assert FieldNormalized(d, n, f);
      assert Untouched(d, n, f.unit) && Untouched(d, n, f.value);
      if n[f.unit] != PyNone {
        var k := NormalizedKey(f);
        assert ToMegabytes(n[f.unit], n[f.value]) == Ok(n[k]);
        assert n[k := n[k]] == n;
      }
      assert NormalizeStep(n, f) == Ok(n);
    }
  }
}
