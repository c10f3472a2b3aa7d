/** The configuration resource of the REST server: a PUT is checked by a recursive validator
    and applied by a recursive deep merge; a GET picks the fields its query names. Objects are
    ordered lists of fields, as the JSON library keeps them. */
module RestConfig {
  import opened Options

  datatype Json =
    | Null | Bool(b: bool) | Int(i: int) | Double(d: real) | Str(s: string)
    | Array(items: seq<Json>) | Object(fields: Fields)

  datatype Fields = Nil | Field(key: string, val: Json, rest: Fields)

  // What the server asks its surroundings: the highest frame rate and what is an IPv4 address.
  datatype Env = Env(maxFps: int, isIp: string -> bool)

  const TOP_KEYS: seq<string> := ["system_cfg", "stream_1", "stream_2"]
  const SYSTEM_KEYS: seq<string> := ["ipaddress", "netmask", "gateway", "recorded", "objectdet", "rotate180"]
  const STREAM_KEYS: seq<string> := ["resolution", "fps", "datarate"]

  // ---------- Objects ----------

  function Lookup(fs: Fields, k: string): Maybe<Json> {
    if fs.Nil? then Nothing else if fs.key == k then Just(fs.val) else Lookup(fs.rest, k)
  }

  // Replaces in place, or appends.
  function Put(fs: Fields, k: string, v: Json): Fields {
    if fs.Nil? then Field(k, v, Nil)
    else if fs.key == k then Field(k, v, fs.rest)
    else Field(fs.key, fs.val, Put(fs.rest, k, v))
  }

  // No key occurs twice in an object, as the library guarantees.
  predicate Unique(fs: Fields)
    decreases fs
  {
    fs.Field? ==>
      && Lookup(fs.rest, fs.key).Nothing?
      && Unique(fs.rest)
      && (fs.val.Object? ==> Unique(fs.val.fields))
  }

  predicate ObjectAt(fs: Fields, k: string) {
    Lookup(fs, k).Just? && Lookup(fs, k).value.Object?
  }

  function Inner(fs: Fields, k: string): Fields
    requires ObjectAt(fs, k)
  {
    Lookup(fs, k).value.fields
  }

  // ---------- Validation ----------

  // The library's int reading of a JSON integer.
  function Int32(i: int): int {
    if i < -0x8000_0000 then -0x8000_0000 else if i > 0x7fff_ffff then 0x7fff_ffff else i
  }

  predicate NearOneOf(v: real, list: seq<real>) {
    exists i :: 0 <= i < |list| && -0.0001 < v - list[i] < 0.0001
  }

  predicate ValidValue(env: Env, k: string, v: Json) {
    if k == "resolution" then v.Int? && Int32(v.i) in [720, 1080]
    else if k == "fps" then v.Int? && Int32(v.i) in [1, 5, 10, 15, 20, 30, 60] && Int32(v.i) <= env.maxFps
    else if k == "datarate" then
      (v.Int? || v.Double?)
      && NearOneOf(if v.Int? then v.i as real else v.d, [0.2, 0.5, 1.0, 2.0, 4.0, 6.0, 8.0])
    else if k == "recorded" then v.Int? && Int32(v.i) in [0, 1, 2]
    else if k == "objectdet" || k == "rotate180" then v.Int? && Int32(v.i) in [0, 1]
    else if k == "ipaddress" || k == "gateway" then v.Str? && env.isIp(v.s)
    else if k == "netmask" then v.Int? && 8 <= Int32(v.i) <= 32
    else true
  }

  /** The values accepted for each key, in numbers. An integer too large for the library's int
      is no such value. */
  lemma AcceptedValues(env: Env, v: Json)
    ensures ValidValue(env, "resolution", v) <==> v == Int(720) || v == Int(1080)
    ensures ValidValue(env, "fps", v) <==>
              && (v == Int(1) || v == Int(5) || v == Int(10) || v == Int(15) || v == Int(20) || v == Int(30) || v == Int(60))
              && v.i <= env.maxFps
    ensures ValidValue(env, "recorded", v) <==> v == Int(0) || v == Int(1) || v == Int(2)
    ensures ValidValue(env, "objectdet", v) <==> v == Int(0) || v == Int(1)
    ensures ValidValue(env, "rotate180", v) <==> v == Int(0) || v == Int(1)
    ensures ValidValue(env, "ipaddress", v) <==> v.Str? && env.isIp(v.s)
    ensures ValidValue(env, "gateway", v) <==> v.Str? && env.isIp(v.s)
    ensures ValidValue(env, "netmask", v) <==> v.Int? && 8 <= v.i <= 32
  {
  }

  /** The data rates, whole numbers exactly and others to within a ten-thousandth. */
  lemma AcceptedRates(env: Env, i: int, d: real)
    ensures ValidValue(env, "datarate", Int(i)) <==> i == 1 || i == 2 || i == 4 || i == 6 || i == 8
    ensures ValidValue(env, "datarate", Double(d)) <==>
              || 0.1999 < d < 0.2001 || 0.4999 < d < 0.5001 || 0.9999 < d < 1.0001 || 1.9999 < d < 2.0001
              || 3.9999 < d < 4.0001 || 5.9999 < d < 6.0001 || 7.9999 < d < 8.0001
    ensures forall v: Json :: ValidValue(env, "datarate", v) ==> v.Int? || v.Double?
  {
    NearARate(i as real);
    NearARate(d);
  }

  lemma NearARate(v: real)
    ensures NearOneOf(v, [0.2, 0.5, 1.0, 2.0, 4.0, 6.0, 8.0]) <==>
              || 0.1999 < v < 0.2001 || 0.4999 < v < 0.5001 || 0.9999 < v < 1.0001 || 1.9999 < v < 2.0001
              || 3.9999 < v < 4.0001 || 5.9999 < v < 6.0001 || 7.9999 < v < 8.0001
  {
    var list := [0.2, 0.5, 1.0, 2.0, 4.0, 6.0, 8.0];
    assert list[0] == 0.2 && list[1] == 0.5 && list[2] == 1.0 && list[3] == 2.0;
    assert list[4] == 4.0 && list[5] == 6.0 && list[6] == 8.0;
  }

  predicate Validate(env: Env, target: Fields, updates: Fields)
    decreases updates
  {
    updates.Field? ==>
      && (if updates.val.Object? && ObjectAt(target, updates.key)
          then Validate(env, Inner(target, updates.key), updates.val.fields)
          else ValidValue(env, updates.key, updates.val))
      && Validate(env, target, updates.rest)
  }

  predicate ValidSection(top: string, fs: Fields) {
    fs.Field? ==>
      && !fs.val.Object?
      && fs.key in (if top == "system_cfg" then SYSTEM_KEYS else STREAM_KEYS)
      && ValidSection(top, fs.rest)
  }

  predicate IsValidQuery(q: Fields) {
    q.Field? ==>
      && q.key in TOP_KEYS
      && q.val.Object?
      && ValidSection(q.key, q.val.fields)
      && IsValidQuery(q.rest)
  }

  // ---------- Deep merge ----------

  function Merged(was: Maybe<Json>, v: Json): Json
    decreases v, 1
  {
    if v.Object? && was.Just? && was.value.Object? then Object(Apply(was.value.fields, v.fields)) else v
  }

  function Apply(target: Fields, updates: Fields): Fields
    decreases updates, 0
  {
    if updates.Nil? then target
    else Apply(Put(target, updates.key, Merged(Lookup(target, updates.key), updates.val)), updates.rest)
  }

  lemma {:induction false} LookupPut(fs: Fields, k: string, v: Json, x: string)
    ensures Lookup(Put(fs, k, v), x) == if x == k then Just(v) else Lookup(fs, x)
    decreases fs
  {
    if fs.Field? && fs.key != k {
      LookupPut(fs.rest, k, v, x);
    }
  }

  /** After a merge a key named by the updates holds the merged value, any other its old one. */
  lemma {:induction false} LookupApply(target: Fields, updates: Fields, x: string)
    requires Unique(updates)
    ensures Lookup(Apply(target, updates), x) ==
            if Lookup(updates, x).Just? then Just(Merged(Lookup(target, x), Lookup(updates, x).value))
            else Lookup(target, x)
    decreases updates
  {
    if updates.Field? {
      var v := Merged(Lookup(target, updates.key), updates.val);
      LookupPut(target, updates.key, v, x);
      LookupApply(Put(target, updates.key, v), updates.rest, x);
    }
  }

  // ---------- Paths ----------

  function At(fs: Fields, path: seq<string>): Maybe<Json>
    requires path != []
    decreases |path|
  {
    var v := Lookup(fs, path[0]);
    if |path| == 1 then v
    else if v.Just? && v.value.Object? then At(v.value.fields, path[1..])
    else Nothing
  }

  // The updates leave the value at this path alone.
  predicate Untouched(target: Fields, updates: Fields, path: seq<string>)
    requires path != []
    decreases |path|
  {
    var v := Lookup(updates, path[0]);
    || v.Nothing?
    || (|path| > 1 && v.value.Object? && ObjectAt(target, path[0])
        && Untouched(Inner(target, path[0]), v.value.fields, path[1..]))
  }

  lemma {:induction false} UniqueInside(fs: Fields, k: string)
    requires Unique(fs) && ObjectAt(fs, k)
    ensures Unique(Inner(fs, k)) && Inner(fs, k) < fs
    decreases fs
  {
    if fs.key != k {
      UniqueInside(fs.rest, k);
    }
  }

  /** A merge changes nothing at a path its updates do not name. */
  lemma {:induction false} UnnamedPathsUnchanged(target: Fields, updates: Fields, path: seq<string>)
    requires Unique(updates) && path != [] && Untouched(target, updates, path)
    ensures At(Apply(target, updates), path) == At(target, path)
    decreases |path|
  {
    LookupApply(target, updates, path[0]);
    var v := Lookup(updates, path[0]);
    if v.Just? {
      UniqueInside(updates, path[0]);
      UnnamedPathsUnchanged(Inner(target, path[0]), v.value.fields, path[1..]);
    }
  }

  /** Every leaf of the updates is at its path afterwards. */
  lemma {:induction false} NamedLeavesStored(target: Fields, updates: Fields, path: seq<string>)
    requires Unique(updates) && path != []
    requires At(updates, path).Just? && !At(updates, path).value.Object?
    ensures At(Apply(target, updates), path) == At(updates, path)
    decreases |path|
  {
    LookupApply(target, updates, path[0]);
    if |path| > 1 {
      UniqueInside(updates, path[0]);
      if ObjectAt(target, path[0]) {
        NamedLeavesStored(Inner(target, path[0]), Inner(updates, path[0]), path[1..]);
      }
    }
  }

  // ---------- Applying twice ----------

  // Merging the updates would change nothing.
  predicate Absorbed(target: Fields, updates: Fields)
    decreases updates
  {
    updates.Field? ==>
      && (if updates.val.Object?
          then ObjectAt(target, updates.key) && Absorbed(Inner(target, updates.key), updates.val.fields)
          else Lookup(target, updates.key) == Just(updates.val))
      && Absorbed(target, updates.rest)
  }

  lemma {:induction false} PutSame(fs: Fields, k: string)
    requires Lookup(fs, k).Just?
    ensures Put(fs, k, Lookup(fs, k).value) == fs
    decreases fs
  {
    if fs.key != k {
      PutSame(fs.rest, k);
    }
  }

  lemma {:induction false} AbsorbedIsFixed(target: Fields, updates: Fields)
    requires Absorbed(target, updates)
    ensures Apply(target, updates) == target
    decreases updates
  {
    if updates.Field? {
      if updates.val.Object? {
        AbsorbedIsFixed(Inner(target, updates.key), updates.val.fields);
      }
      PutSame(target, updates.key);
      AbsorbedIsFixed(target, updates.rest);
    }
  }

  // The target holds what a merge of this value into something gave.
  ghost predicate HoldsMerge(target: Fields, k: string, v: Json) {
    exists was: Maybe<Json> :: Lookup(target, k) == Just(Merged(was, v))
  }

  // Fields that hold what a merge of them gave absorb it.
  lemma {:induction false} AbsorbedByLookups(target: Fields, updates: Fields)
    requires Unique(updates)
    requires forall k :: Lookup(updates, k).Just? ==> HoldsMerge(target, k, Lookup(updates, k).value)
    ensures Absorbed(target, updates)
    decreases updates, 0
  {
    if updates.Field? {
      var v := updates.val;
      assert Lookup(updates, updates.key) == Just(v);
      var before: Maybe<Json> :| Lookup(target, updates.key) == Just(Merged(before, v));
      if v.Object? {
        if before.Just? && before.value.Object? {
          ApplyAbsorbs(before.value.fields, v.fields);
        } else {
          SelfAbsorbed(v.fields);
        }
      }
      forall k | Lookup(updates.rest, k).Just?
        ensures HoldsMerge(target, k, Lookup(updates.rest, k).value)
      {
        assert Lookup(updates, k) == Lookup(updates.rest, k);
      }
      AbsorbedByLookups(target, updates.rest);
    }
  }

  lemma {:induction false} SelfAbsorbed(fs: Fields)
    requires Unique(fs)
    ensures Absorbed(fs, fs)
    decreases fs, 1
  {
    forall k | Lookup(fs, k).Just?
      ensures HoldsMerge(fs, k, Lookup(fs, k).value)
    {
      assert Lookup(fs, k) == Just(Merged(Nothing, Lookup(fs, k).value));
    }
    AbsorbedByLookups(fs, fs);
  }

  lemma {:induction false} ApplyAbsorbs(target: Fields, updates: Fields)
    requires Unique(updates)
    ensures Absorbed(Apply(target, updates), updates)
    decreases updates, 1
  {
    forall k | Lookup(updates, k).Just?
      ensures HoldsMerge(Apply(target, updates), k, Lookup(updates, k).value)
    {
      LookupApply(target, updates, k);
      assert Lookup(Apply(target, updates), k) == Just(Merged(Lookup(target, k), Lookup(updates, k).value));
    }
    AbsorbedByLookups(Apply(target, updates), updates);
  }

  /** Applying an item twice equals applying it once, field order included. */
  lemma ApplyTwice(target: Fields, updates: Fields)
    requires Unique(updates)
    ensures Apply(Apply(target, updates), updates) == Apply(target, updates)
  {
    ApplyAbsorbs(target, updates);
    AbsorbedIsFixed(Apply(target, updates), updates);
  }

  // ---------- Several updates in turn ----------

  lemma {:induction false} PutTwice(fs: Fields, k: string, v: Json, w: Json)
    ensures Put(Put(fs, k, v), k, w) == Put(fs, k, w)
    decreases fs
  {
    if fs.Field? && fs.key != k {
      PutTwice(fs.rest, k, v, w);
    }
  }

  lemma {:induction false} PutsCommute(fs: Fields, k: string, v: Json, j: string, w: Json)
    requires j != k && Lookup(fs, k).Just?
    ensures Put(Put(fs, j, w), k, v) == Put(Put(fs, k, v), j, w)
    decreases fs
  {
    if fs.key != k && fs.key != j {
      PutsCommute(fs.rest, k, v, j, w);
    }
  }

  // A field that is there already can be replaced before or after a merge that does not name it.
  lemma {:induction false} PutPastApply(target: Fields, updates: Fields, k: string, v: Json)
    requires Lookup(updates, k).Nothing? && Lookup(target, k).Just?
    ensures Put(Apply(target, updates), k, v) == Apply(Put(target, k, v), updates)
    decreases updates
  {
    if updates.Field? {
      var m := Merged(Lookup(target, updates.key), updates.val);
      LookupPut(target, updates.key, m, k);
      LookupPut(target, k, v, updates.key);
      PutsCommute(target, k, v, updates.key, m);
      PutPastApply(Put(target, updates.key, m), updates.rest, k, v);
    }
  }

  // Merging updates with one field replaced or appended.
  lemma {:induction false} ApplyPut(target: Fields, u: Fields, k: string, w: Json)
    requires Unique(u)
    ensures Apply(target, Put(u, k, w)) == Put(Apply(target, u), k, Merged(Lookup(target, k), w))
    decreases u
  {
    if u.Field? {
      var m := Merged(Lookup(target, u.key), u.val);
      LookupPut(target, u.key, m, k);
      if u.key == k {
        PutPastApply(Put(target, k, m), u.rest, k, Merged(Lookup(target, k), w));
        PutTwice(target, k, m, Merged(Lookup(target, k), w));
      } else {
        ApplyPut(Put(target, u.key, m), u.rest, k, w);
      }
    }
  }

  // No object of v meets a value of u that is none.
  predicate Fits(u: Fields, v: Fields)
    decreases v
  {
    v.Field? ==>
      && (v.val.Object? && Lookup(u, v.key).Just? ==>
            Lookup(u, v.key).value.Object? && Fits(Lookup(u, v.key).value.fields, v.val.fields))
      && Fits(u, v.rest)
  }

  lemma {:induction false} FitsPut(u: Fields, v: Fields, k: string, w: Json)
    requires Fits(u, v) && Lookup(v, k).Nothing?
    ensures Fits(Put(u, k, w), v)
    decreases v
  {
    if v.Field? {
      LookupPut(u, k, w, v.key);
      FitsPut(u, v.rest, k, w);
    }
  }

  lemma {:induction false} PutUnique(fs: Fields, k: string, v: Json)
    requires Unique(fs) && (v.Object? ==> Unique(v.fields))
    ensures Unique(Put(fs, k, v))
    decreases fs
  {
    if fs.Field? && fs.key != k {
      PutUnique(fs.rest, k, v);
      LookupPut(fs.rest, k, v, fs.key);
    }
  }

  lemma {:induction false} ApplyUnique(target: Fields, updates: Fields)
    requires Unique(target) && Unique(updates)
    ensures Unique(Apply(target, updates))
    decreases updates
  {
    if updates.Field? {
      var k, v := updates.key, updates.val;
      if v.Object? && ObjectAt(target, k) {
        UniqueInside(target, k);
        ApplyUnique(Inner(target, k), v.fields);
      }
      PutUnique(target, k, Merged(Lookup(target, k), v));
      ApplyUnique(Put(target, k, Merged(Lookup(target, k), v)), updates.rest);
    }
  }

  /** Merging u and then v equals merging once what v makes of u, field order included, when no
      object of v meets a plain value of u. */
  lemma {:induction false} MergeInOne(target: Fields, u: Fields, v: Fields)
    requires Unique(u) && Unique(v) && Fits(u, v)
    ensures Apply(Apply(target, u), v) == Apply(target, Apply(u, v))
    decreases v
  {
    if v.Field? {
      var k := v.key;
      var m := Merged(Lookup(u, k), v.val);
      if Lookup(u, k).Just? && v.val.Object? {
        UniqueInside(u, k);
        ApplyUnique(Inner(u, k), v.val.fields);
        if ObjectAt(target, k) {
          MergeInOne(Inner(target, k), Inner(u, k), v.val.fields);
        }
      }
      LookupApply(target, u, k);
      assert Merged(Lookup(Apply(target, u), k), v.val) == Merged(Lookup(target, k), m);
      ApplyPut(target, u, k, m);
      PutUnique(u, k, m);
      FitsPut(u, v.rest, k, m);
      MergeInOne(target, Put(u, k, m), v.rest);
    }
  }

  // ---------- Validity is kept ----------

  function SectionKeys(top: string): seq<string> {
    if top == "system_cfg" then SYSTEM_KEYS else STREAM_KEYS
  }

  // Every known field of the section has a valid value.
  ghost predicate FieldsOk(env: Env, top: string, fs: Fields) {
    forall k :: k in SectionKeys(top) && Lookup(fs, k).Just? ==> ValidValue(env, k, Lookup(fs, k).value)
  }

  ghost predicate SectionsOk(env: Env, config: Fields) {
    forall s :: s in TOP_KEYS && ObjectAt(config, s) ==> FieldsOk(env, s, Inner(config, s))
  }

  ghost predicate HasSections(config: Fields) {
    forall s :: s in TOP_KEYS ==> ObjectAt(config, s)
  }

  // All values the item brings along are valid.
  ghost predicate ItemOk(env: Env, q: Fields) {
    forall s :: s in TOP_KEYS && ObjectAt(q, s) ==> FieldsOk(env, s, Inner(q, s))
  }

  lemma {:induction false} SectionField(top: string, fs: Fields, k: string)
    requires ValidSection(top, fs) && Lookup(fs, k).Just?
    ensures k in SectionKeys(top) && !Lookup(fs, k).value.Object?
    decreases fs
  {
    if fs.key != k {
      SectionField(top, fs.rest, k);
    }
  }

  lemma {:induction false} QuerySection(q: Fields, s: string)
    requires IsValidQuery(q) && Lookup(q, s).Just?
    ensures s in TOP_KEYS && ObjectAt(q, s) && ValidSection(s, Inner(q, s))
    decreases q
  {
    if q.key != s {
      QuerySection(q.rest, s);
    }
  }

  // What a section may hold, key by key.
  predicate KnownField(top: string, k: string, v: Json) {
    && !v.Object?
    && if top == "system_cfg" then
         k in ["ipaddress", "netmask", "gateway", "recorded", "objectdet", "rotate180"]
       else
         k in ["resolution", "fps", "datarate"]
  }

  ghost predicate AllKnown(top: string, fs: Fields) {
    forall k :: Lookup(fs, k).Just? ==> KnownField(top, k, Lookup(fs, k).value)
  }

  ghost predicate KnownSection(top: string, v: Json) {
    && top in ["system_cfg", "stream_1", "stream_2"] && v.Object?
    && AllKnown(top, v.fields)
  }

  lemma {:induction false} SectionIsKnown(top: string, fs: Fields)
    requires Unique(fs)
    ensures ValidSection(top, fs) <==> AllKnown(top, fs)
    decreases fs
  {
    if fs.Field? {
      SectionIsKnown(top, fs.rest);
      assert Lookup(fs, fs.key) == Just(fs.val);
      if AllKnown(top, fs) {
        forall k | Lookup(fs.rest, k).Just? ensures KnownField(top, k, Lookup(fs.rest, k).value) {
          assert Lookup(fs, k) == Lookup(fs.rest, k);
        }
      }
      if ValidSection(top, fs) {
        forall k | Lookup(fs, k).Just? ensures KnownField(top, k, Lookup(fs, k).value) {
          assert k == fs.key || Lookup(fs, k) == Lookup(fs.rest, k);
        }
      }
    }
  }

  ghost predicate KnownSections(q: Fields) {
    forall s :: Lookup(q, s).Just? ==> KnownSection(s, Lookup(q, s).value)
  }

  /** A query is well formed exactly when whatever is found in it is one of the three sections,
      and whatever is found in a section is a plain value at one of its keys. */
  lemma {:induction false} QueryIsKnown(q: Fields)
    requires Unique(q)
    ensures IsValidQuery(q) <==> KnownSections(q)
    decreases q
  {
    if q.Field? {
      QueryIsKnown(q.rest);
      if q.val.Object? {
        SectionIsKnown(q.key, q.val.fields);
      }
      assert Lookup(q, q.key) == Just(q.val);
      if KnownSections(q) {
        forall s | Lookup(q.rest, s).Just? ensures KnownSection(s, Lookup(q.rest, s).value) {
          assert Lookup(q, s) == Lookup(q.rest, s);
        }
      }
      if IsValidQuery(q) {
        forall s | Lookup(q, s).Just? ensures KnownSection(s, Lookup(q, s).value) {
          assert s == q.key || Lookup(q, s) == Lookup(q.rest, s);
        }
      }
    }
  }

  // Validating a section checks exactly its values: none of them is an object.
  lemma {:induction false} ValidateSectionIff(env: Env, target: Fields, top: string, fs: Fields)
    requires ValidSection(top, fs) && Unique(fs)
    ensures Validate(env, target, fs) <==> FieldsOk(env, top, fs)
    decreases fs
  {
    if fs.Field? {
      ValidateSectionIff(env, target, top, fs.rest);
      assert Lookup(fs, fs.key) == Just(fs.val);
      assert forall k :: Lookup(fs.rest, k).Just? ==> Lookup(fs, k) == Lookup(fs.rest, k);
    }
  }

  // Every section the item names exists.
  ghost predicate Covers(config: Fields, q: Fields) {
    forall s :: ObjectAt(q, s) ==> ObjectAt(config, s)
  }

  /** While the sections it names exist, validation does not depend on what they hold: an item is
      accepted exactly when all its values are valid. */
  lemma {:induction false} ValidateIff(env: Env, config: Fields, q: Fields)
    requires Covers(config, q) && IsValidQuery(q) && Unique(q)
    ensures Validate(env, config, q) <==> ItemOk(env, q)
    decreases q
  {
    if q.Field? {
      assert ObjectAt(q, q.key);
      assert forall s :: Lookup(q.rest, s).Just? ==> Lookup(q, s) == Lookup(q.rest, s);
      assert forall s :: ObjectAt(q.rest, s) ==> ObjectAt(q, s);
      ValidateIff(env, config, q.rest);
      ValidateSectionIff(env, Inner(config, q.key), q.key, q.val.fields);
    }
  }

  lemma SectionsCover(config: Fields, q: Fields)
    requires HasSections(config) && IsValidQuery(q)
    ensures Covers(config, q)
  {
    forall s | ObjectAt(q, s) ensures ObjectAt(config, s) {
      QuerySection(q, s);
    }
  }

  lemma {:induction false} ValidatedSection(env: Env, config: Fields, q: Fields, s: string)
    requires IsValidQuery(q) && Unique(q) && Validate(env, config, q)
    requires ObjectAt(q, s) && ObjectAt(config, s)
    ensures Validate(env, Inner(config, s), Inner(q, s))
    decreases q
  {
    if q.key != s {
      ValidatedSection(env, config, q.rest, s);
    }
  }

  lemma MergedSectionOk(env: Env, top: string, target: Fields, fs: Fields)
    requires ValidSection(top, fs) && Unique(fs) && Validate(env, target, fs) && FieldsOk(env, top, target)
    ensures FieldsOk(env, top, Apply(target, fs))
  {
    ValidateSectionIff(env, target, top, fs);
    forall k | k in SectionKeys(top) && Lookup(Apply(target, fs), k).Just?
      ensures ValidValue(env, k, Lookup(Apply(target, fs), k).value)
    {
      LookupApply(target, fs, k);
      if Lookup(fs, k).Just? {
        SectionField(top, fs, k);
      }
    }
  }

  /** An accepted item keeps the sections valid if and only if the values it gives for sections
      that the configuration lacks are valid: the validator does not look at those. */
  lemma ValidityKeptIff(env: Env, config: Fields, q: Fields)
    requires SectionsOk(env, config) && IsValidQuery(q) && Unique(q) && Validate(env, config, q)
    ensures SectionsOk(env, Apply(config, q)) <==>
            forall s :: s in TOP_KEYS && ObjectAt(q, s) && !ObjectAt(config, s) ==> FieldsOk(env, s, Inner(q, s))
  {
    var r := Apply(config, q);
    forall s | s in TOP_KEYS
      ensures ObjectAt(q, s) && !ObjectAt(config, s) ==> ObjectAt(r, s) && Inner(r, s) == Inner(q, s)
      ensures ObjectAt(r, s) && !(ObjectAt(q, s) && !ObjectAt(config, s)) ==> FieldsOk(env, s, Inner(r, s))
    {
      LookupApply(config, q, s);
      if Lookup(q, s).Just? {
        QuerySection(q, s);
        UniqueInside(q, s);
        if ObjectAt(config, s) {
          ValidatedSection(env, config, q, s);
          MergedSectionOk(env, s, Inner(config, s), Inner(q, s));
        }
      }
    }
  }

  // The whole condition with all sections there.
  lemma ValidityKept(env: Env, config: Fields, q: Fields)
    requires HasSections(config) && SectionsOk(env, config)
    requires IsValidQuery(q) && Unique(q) && Validate(env, config, q)
    ensures HasSections(Apply(config, q)) && SectionsOk(env, Apply(config, q))
  {
    ValidityKeptIff(env, config, q);
    SectionsStay(config, q);
  }

  lemma SectionsStay(config: Fields, q: Fields)
    requires HasSections(config) && IsValidQuery(q) && Unique(q)
    ensures HasSections(Apply(config, q))
  {
    forall s | s in TOP_KEYS ensures ObjectAt(Apply(config, q), s) {
      LookupApply(config, q, s);
      if Lookup(q, s).Just? {
        QuerySection(q, s);
      }
    }
  }

  /** With a section missing, a rate nobody accepts is stored. */
  lemma MissingSectionIsNotChecked(env: Env)
    ensures var q := Field("stream_1", Object(Field("fps", Int(999), Nil)), Nil);
            && PutResult(env, Nil, Object(q)) == Ok(q)
            && SectionsOk(env, Nil) && !SectionsOk(env, q)
  {
    var inner := Field("fps", Int(999), Nil);
    var q := Field("stream_1", Object(inner), Nil);
    assert "stream_1" in TOP_KEYS && "fps" in STREAM_KEYS;
    assert TOP_KEYS[1] == "stream_1" && STREAM_KEYS[1] == "fps";
    SequentialOne(env, Nil, Object(q));
    assert Apply(Nil, q) == q;
    assert Lookup(q, "stream_1") == Just(Object(inner)) && Lookup(inner, "fps") == Just(Int(999));
    assert !FieldsOk(env, "stream_1", inner);
  }

  // ---------- PUT ----------

  datatype Refusal = InvalidQuery | UpdateFailed | BadLength | InvalidItem | UnsupportedType
  datatype Outcome = Ok(config: Fields) | Refused(why: Refusal)

  predicate GoodItem(item: Json) {
    item.Object? && IsValidQuery(item.fields)
  }

  function Sequential(env: Env, config: Fields, items: seq<Json>): Outcome
    requires forall i :: 0 <= i < |items| ==> items[i].Object?
    decreases |items|
  {
    if items == [] then Ok(config)
    else if !Validate(env, config, items[0].fields) then Refused(UpdateFailed)
    else Sequential(env, Apply(config, items[0].fields), items[1..])
  }

  lemma SequentialOne(env: Env, config: Fields, item: Json)
    requires item.Object?
    ensures Sequential(env, config, [item]) ==
            if Validate(env, config, item.fields) then Ok(Apply(config, item.fields)) else Refused(UpdateFailed)
  {
    assert [item][1..] == [];
  }

  function PutResult(env: Env, config: Fields, query: Json): Outcome {
    match query
    case Object(q) =>
      if !IsValidQuery(q) then Refused(InvalidQuery) else Sequential(env, config, [query])
    case Array(items) =>
      if !(1 <= |items| <= 12) then Refused(BadLength)
      else if exists i :: 0 <= i < |items| && !GoodItem(items[i]) then Refused(InvalidItem)
      else Sequential(env, config, items)
    case _ => Refused(UnsupportedType)
  }

  function Items(query: Json): seq<Json> {
    match query
    case Object(_) => [query]
    case Array(items) => items
    case _ => []
  }

  // The merge of all items in turn, checked or not.
  function MergeAll(config: Fields, items: seq<Json>): Fields
    requires forall i :: 0 <= i < |items| ==> items[i].Object?
    decreases |items|
  {
    if items == [] then config else MergeAll(Apply(config, items[0].fields), items[1..])
  }

  // The keys within each object of the request are distinct.
  ghost predicate UniqueItems(items: seq<Json>) {
    forall i :: 0 <= i < |items| && items[i].Object? ==> Unique(items[i].fields)
  }

  lemma {:induction false} SequentialFacts(env: Env, config: Fields, items: seq<Json>)
    requires UniqueItems(items) && HasSections(config)
    requires forall i :: 0 <= i < |items| ==> items[i].Object? && GoodItem(items[i])
    ensures Sequential(env, config, items).Ok? <==> forall i :: 0 <= i < |items| ==> ItemOk(env, items[i].fields)
    ensures Sequential(env, config, items).Ok? ==>
              var r := Sequential(env, config, items).config;
              r == MergeAll(config, items) && HasSections(r) && (SectionsOk(env, config) ==> SectionsOk(env, r))
    decreases |items|
  {
    if items != [] {
      var q := items[0].fields;
      assert GoodItem(items[0]) && Unique(q);
      SectionsCover(config, q);
      ValidateIff(env, config, q);
      if Validate(env, config, q) {
        SectionsStay(config, q);
        if SectionsOk(env, config) {
          ValidityKept(env, config, q);
        }
        SequentialFacts(env, Apply(config, q), items[1..]);
        assert forall i :: 0 < i < |items| ==> items[i] == items[1..][i - 1];
      }
    }
  }

  /** On a configuration with valid sections a PUT is accepted exactly when it is one item, or one
      to twelve items, of known keys and valid values. Then the merge of all items in turn is
      stored, and its sections are valid again; otherwise nothing is. */
  lemma PutStoresMergeOrNothing(env: Env, config: Fields, query: Json)
    requires HasSections(config) && SectionsOk(env, config) && UniqueItems(Items(query))
    ensures PutResult(env, config, query).Ok? <==>
            && (query.Array? ==> 1 <= |query.items| <= 12)
            && Items(query) != []
            && forall i :: 0 <= i < |Items(query)| ==> GoodItem(Items(query)[i]) && ItemOk(env, Items(query)[i].fields)
    ensures PutResult(env, config, query).Ok? ==>
              var r := PutResult(env, config, query).config;
              && (forall i :: 0 <= i < |Items(query)| ==> Items(query)[i].Object?)
              && r == MergeAll(config, Items(query)) && HasSections(r) && SectionsOk(env, r)
  {
    var items := Items(query);
    if forall i :: 0 <= i < |items| ==> GoodItem(items[i]) {
      SequentialFacts(env, config, items);
    } else if query.Object? {
      assert !GoodItem(items[0]);
    }
  }

  /** What a PUT is refused for: first its kind and the number of its items, then a malformed
      item, and with all sections there otherwise exactly a value that is not valid. */
  lemma PutRefusals(env: Env, config: Fields, query: Json)
    requires HasSections(config) && UniqueItems(Items(query))
    ensures PutResult(env, config, query) ==
            if !query.Object? && !query.Array? then Refused(UnsupportedType)
            else if query.Array? && (query.items == [] || 12 < |query.items|) then Refused(BadLength)
            else if exists i :: 0 <= i < |Items(query)| && !GoodItem(Items(query)[i]) then
              Refused(if query.Object? then InvalidQuery else InvalidItem)
            else if exists i :: 0 <= i < |Items(query)| && !ItemOk(env, Items(query)[i].fields) then Refused(UpdateFailed)
            else Ok(MergeAll(config, Items(query)))
  {
    var items := Items(query);
    if query.Object? {
      assert items[0] == query;
    }
    if forall i :: 0 <= i < |items| ==> GoodItem(items[i]) {
      GoodSequence(env, config, items);
    }
  }

  lemma GoodSequence(env: Env, config: Fields, items: seq<Json>)
    requires HasSections(config) && UniqueItems(items)
    requires forall i :: 0 <= i < |items| ==> items[i].Object? && GoodItem(items[i])
    ensures Sequential(env, config, items) ==
            if exists i :: 0 <= i < |items| && !ItemOk(env, items[i].fields) then Refused(UpdateFailed)
            else Ok(MergeAll(config, items))
  {
    forall i | 0 <= i < |items| ensures Covers(config, items[i].fields) {
      SectionsCover(config, items[i].fields);
    }
    CoveredSequence(env, config, items);
  }

  // The item says nothing about the field the path goes through.
  predicate NotNamed(q: Fields, path: seq<string>)
    requires path != []
  {
    || Lookup(q, path[0]).Nothing?
    || (|path| > 1 && ObjectAt(q, path[0]) && Lookup(Inner(q, path[0]), path[1]).Nothing?)
  }

  lemma {:induction false} MergeAllUntouched(config: Fields, items: seq<Json>, path: seq<string>)
    requires path != [] && UniqueItems(items) && HasSections(config)
    requires forall i :: 0 <= i < |items| ==> items[i].Object? && GoodItem(items[i]) && NotNamed(items[i].fields, path)
    ensures At(MergeAll(config, items), path) == At(config, path)
    decreases |items|
  {
    if items != [] {
      var q := items[0].fields;
      assert GoodItem(items[0]) && Unique(q);
      if Lookup(q, path[0]).Just? {
        QuerySection(q, path[0]);
      }
      UnnamedPathsUnchanged(config, q, path);
      SectionsStay(config, q);
      MergeAllUntouched(Apply(config, q), items[1..], path);
    }
  }

  /** A stored PUT leaves every path alone that none of its items names. */
  lemma PutLeavesTheRest(env: Env, config: Fields, query: Json, path: seq<string>)
    requires HasSections(config) && SectionsOk(env, config) && UniqueItems(Items(query)) && path != []
    requires PutResult(env, config, query).Ok?
    requires forall i :: 0 <= i < |Items(query)| && Items(query)[i].Object? ==> NotNamed(Items(query)[i].fields, path)
    ensures At(PutResult(env, config, query).config, path) == At(config, path)
  {
    PutStoresMergeOrNothing(env, config, query);
    MergeAllUntouched(config, Items(query), path);
  }

  // ---------- The same PUT again ----------

  lemma {:induction false} SectionsFit(top: string, u: Fields, v: Fields)
    requires ValidSection(top, v)
    ensures Fits(u, v)
    decreases v
  {
    if v.Field? {
      SectionsFit(top, u, v.rest);
    }
  }

  lemma {:induction false} QueriesFit(u: Fields, v: Fields)
    requires IsValidQuery(u) && IsValidQuery(v)
    ensures Fits(u, v)
    decreases v
  {
    if v.Field? {
      QueriesFit(u, v.rest);
      if Lookup(u, v.key).Just? {
        QuerySection(u, v.key);
        SectionsFit(v.key, Inner(u, v.key), v.val.fields);
      }
    }
  }

  lemma {:induction false} PutSection(top: string, fs: Fields, k: string, v: Json)
    requires ValidSection(top, fs) && k in SectionKeys(top) && !v.Object?
    ensures ValidSection(top, Put(fs, k, v))
    decreases fs
  {
    if fs.Field? && fs.key != k {
      PutSection(top, fs.rest, k, v);
    }
  }

  lemma {:induction false} ApplySection(top: string, u: Fields, v: Fields)
    requires ValidSection(top, u) && ValidSection(top, v)
    ensures ValidSection(top, Apply(u, v))
    decreases v
  {
    if v.Field? {
      PutSection(top, u, v.key, v.val);
      ApplySection(top, Put(u, v.key, v.val), v.rest);
    }
  }

  lemma {:induction false} PutQuery(q: Fields, s: string, fs: Fields)
    requires IsValidQuery(q) && s in TOP_KEYS && ValidSection(s, fs)
    ensures IsValidQuery(Put(q, s, Object(fs)))
    decreases q
  {
    if q.Field? && q.key != s {
      PutQuery(q.rest, s, fs);
    }
  }

  lemma {:induction false} ApplyQuery(u: Fields, v: Fields)
    requires IsValidQuery(u) && IsValidQuery(v)
    ensures IsValidQuery(Apply(u, v))
    decreases v
  {
    if v.Field? {
      var m := Merged(Lookup(u, v.key), v.val);
      if Lookup(u, v.key).Just? {
        QuerySection(u, v.key);
        ApplySection(v.key, Inner(u, v.key), v.val.fields);
      }
      PutQuery(u, v.key, m.fields);
      ApplyQuery(Put(u, v.key, m), v.rest);
    }
  }

  lemma {:induction false} ItemsInOne(config: Fields, u: Fields, items: seq<Json>)
    requires IsValidQuery(u) && Unique(u) && UniqueItems(items)
    requires forall i :: 0 <= i < |items| ==> items[i].Object? && GoodItem(items[i])
    ensures MergeAll(Apply(config, u), items) == Apply(config, MergeAll(u, items))
    ensures Unique(MergeAll(u, items))
    decreases |items|
  {
    if items != [] {
      var q := items[0].fields;
      assert GoodItem(items[0]) && Unique(q);
      QueriesFit(u, q);
      MergeInOne(config, u, q);
      ApplyQuery(u, q);
      ApplyUnique(u, q);
      ItemsInOne(config, Apply(u, q), items[1..]);
    }
  }

  /** An array of items in turn is one merge of what the items make together. */
  lemma ArrayIsOneItem(config: Fields, items: seq<Json>)
    requires UniqueItems(items)
    requires forall i :: 0 <= i < |items| ==> items[i].Object? && GoodItem(items[i])
    ensures MergeAll(config, items) == Apply(config, MergeAll(Nil, items)) && Unique(MergeAll(Nil, items))
  {
    ItemsInOne(config, Nil, items);
  }

  lemma ApplyCovers(config: Fields, q: Fields, q': Fields)
    requires IsValidQuery(q) && Unique(q) && (Covers(config, q') || q' == q)
    ensures Covers(Apply(config, q), q')
  {
    forall s | ObjectAt(q', s) ensures ObjectAt(Apply(config, q), s) {
      LookupApply(config, q, s);
      if Lookup(q, s).Just? {
        QuerySection(q, s);
      }
    }
  }

  lemma {:induction false} MergeCovers(config: Fields, items: seq<Json>, q: Fields)
    requires UniqueItems(items) && (Covers(config, q) || Object(q) in items)
    requires forall i :: 0 <= i < |items| ==> items[i].Object? && GoodItem(items[i])
    ensures Covers(MergeAll(config, items), q)
    decreases |items|
  {
    if items != [] {
      assert GoodItem(items[0]) && Unique(items[0].fields);
      if Covers(config, q) || items[0] == Object(q) {
        ApplyCovers(config, items[0].fields, q);
      }
      MergeCovers(Apply(config, items[0].fields), items[1..], q);
    }
  }

  // With every named section there, a sequence of items is accepted exactly when all their
  // values are valid.
  lemma {:induction false} CoveredSequence(env: Env, config: Fields, items: seq<Json>)
    requires UniqueItems(items)
    requires forall i :: 0 <= i < |items| ==> items[i].Object? && GoodItem(items[i]) && Covers(config, items[i].fields)
    ensures Sequential(env, config, items) ==
            if forall i :: 0 <= i < |items| ==> ItemOk(env, items[i].fields) then Ok(MergeAll(config, items))
            else Refused(UpdateFailed)
    decreases |items|
  {
    if items != [] {
      var q := items[0].fields;
      assert GoodItem(items[0]) && Unique(q);
      ValidateIff(env, config, q);
      forall i | 0 <= i < |items[1..]| ensures Covers(Apply(config, q), items[1..][i].fields) {
        ApplyCovers(config, q, items[1..][i].fields);
      }
      CoveredSequence(env, Apply(config, q), items[1..]);
      assert forall i :: 0 < i < |items| ==> items[i] == items[1..][i - 1];
    }
  }

  lemma {:induction false} SequenceMerges(env: Env, config: Fields, items: seq<Json>)
    requires forall i :: 0 <= i < |items| ==> items[i].Object?
    ensures Sequential(env, config, items).Ok? ==> Sequential(env, config, items).config == MergeAll(config, items)
    decreases |items|
  {
    if items != [] && Validate(env, config, items[0].fields) {
      SequenceMerges(env, Apply(config, items[0].fields), items[1..]);
    }
  }

  /** A stored PUT, single or array, sent again changes nothing, field order included; and it is
      accepted again exactly when all its values are valid, which is checked now even for
      sections that were missing the first time. */
  lemma RepeatedPut(env: Env, config: Fields, query: Json)
    requires UniqueItems(Items(query)) && PutResult(env, config, query).Ok?
    ensures var stored, items := PutResult(env, config, query).config, Items(query);
      && (forall i :: 0 <= i < |items| ==> GoodItem(items[i]))
      && PutResult(env, stored, query) ==
         if forall i :: 0 <= i < |items| ==> ItemOk(env, items[i].fields) then Ok(stored) else Refused(UpdateFailed)
  {
    var items := Items(query);
    if query.Object? {
      assert GoodItem(items[0]);
    }
    assert forall i :: 0 <= i < |items| ==> GoodItem(items[i]);
    SequenceMerges(env, config, items);
    var stored := MergeAll(config, items);
    forall i | 0 <= i < |items| ensures Covers(stored, items[i].fields) {
      assert items[i] == Object(items[i].fields);
      MergeCovers(config, items, items[i].fields);
    }
    CoveredSequence(env, stored, items);
    MergedTwice(config, items);
  }

  lemma MergedTwice(config: Fields, items: seq<Json>)
    requires UniqueItems(items)
    requires forall i :: 0 <= i < |items| ==> items[i].Object? && GoodItem(items[i])
    ensures MergeAll(MergeAll(config, items), items) == MergeAll(config, items)
  {
    ArrayIsOneItem(config, items);
    ArrayIsOneItem(MergeAll(config, items), items);
    ApplyTwice(config, MergeAll(Nil, items));
  }

  // ---------- GET ----------

  function Query(source: Fields, query: Fields): Fields
    decreases query
  {
    if query.Nil? then Nil
    else
      var rest := Query(source, query.rest);
      var v := Lookup(source, query.key);
      if v.Nothing? then rest
      else if query.val.Object? && v.value.Object? then
        var child := Query(v.value.fields, query.val.fields);
        if child.Nil? then rest else Field(query.key, Object(child), rest)
      else if query.val == Str("") then Field(query.key, v.value, rest)
      else rest
  }

  // Some leaf asks for a value.
  predicate IsGetQuery(q: Fields)
    decreases q
  {
    q.Field? && (q.val == Str("") || (q.val.Object? && IsGetQuery(q.val.fields)) || IsGetQuery(q.rest))
  }

  function GetResult(config: Fields, query: Json): Maybe<Fields> {
    if query.Object? && IsValidQuery(query.fields) && IsGetQuery(query.fields)
    then Just(Query(config, query.fields))
    else Nothing
  }

  lemma {:induction false} AskingLeaf(q: Fields) returns (path: seq<string>)
    requires Unique(q) && IsGetQuery(q)
    ensures path != [] && At(q, path) == Just(Str(""))
    decreases q
  {
    if q.val == Str("") {
      path := [q.key];
    } else if q.val.Object? && IsGetQuery(q.val.fields) {
      var inside := AskingLeaf(q.val.fields);
      path := [q.key] + inside;
      assert path[1..] == inside;
    } else {
      path := AskingLeaf(q.rest);
      assert Lookup(q, path[0]) == Lookup(q.rest, path[0]);
    }
  }

  lemma {:induction false} LeafAsks(q: Fields, path: seq<string>)
    requires path != [] && At(q, path) == Just(Str(""))
    ensures IsGetQuery(q)
    decreases q
  {
    if q.key != path[0] {
      assert Lookup(q.rest, path[0]) == Lookup(q, path[0]);
      LeafAsks(q.rest, path);
    } else if |path| > 1 {
      LeafAsks(q.val.fields, path[1..]);
    }
  }

  /** A GET is answered exactly when its query is well formed and holds the empty string
      somewhere. */
  lemma GetAnsweredIff(config: Fields, query: Json)
    requires query.Object? ==> Unique(query.fields)
    ensures GetResult(config, query).Just? <==>
            && query.Object? && IsValidQuery(query.fields)
            && exists path: seq<string> :: path != [] && At(query.fields, path) == Just(Str(""))
  {
    if query.Object? {
      if IsGetQuery(query.fields) {
        var path := AskingLeaf(query.fields);
      } else {
        forall path: seq<string> | path != [] ensures At(query.fields, path) != Just(Str("")) {
          if At(query.fields, path) == Just(Str("")) {
            LeafAsks(query.fields, path);
          }
        }
      }
    }
  }

  // The answer to one field of a query, from its own value and the stored one.
  function Answer(v: Maybe<Json>, asked: Maybe<Json>): Maybe<Json> {
    if v.Nothing? || asked.Nothing? then Nothing
    else if asked.value.Object? && v.value.Object? then
      var child := Query(v.value.fields, asked.value.fields);
      if child.Nil? then Nothing else Just(Object(child))
    else if asked.value == Str("") then v
    else Nothing
  }

  lemma {:induction false} LookupQuery(source: Fields, q: Fields, k: string)
    requires Unique(q)
    ensures Lookup(Query(source, q), k) == Answer(Lookup(source, k), Lookup(q, k))
    decreases q
  {
    if q.Field? {
      LookupQuery(source, q.rest, k);
    }
  }

  // The query asks, with the empty string, for this path or for one it goes through.
  predicate Asked(q: Fields, path: seq<string>)
    requires path != []
    decreases |path|
  {
    var v := Lookup(q, path[0]);
    || v == Just(Str(""))
    || (|path| > 1 && v.Just? && v.value.Object? && Asked(v.value.fields, path[1..]))
  }

  /** At every path asked for, the answer holds what the stored tree holds there, or nothing when
      the tree holds nothing. */
  lemma {:induction false} AskedIsAnswered(source: Fields, q: Fields, path: seq<string>)
    requires Unique(q) && path != [] && Asked(q, path)
    ensures At(Query(source, q), path) == At(source, path)
    decreases |path|
  {
    LookupQuery(source, q, path[0]);
    if ObjectAt(q, path[0]) {
      UniqueInside(q, path[0]);
      if ObjectAt(source, path[0]) {
        AskedIsAnswered(Inner(source, path[0]), Inner(q, path[0]), path[1..]);
      }
    }
  }

  /** At any other path the answer holds at most an object on the way to what was asked: one that
      is an object in the query and in the stored tree too, and never an empty one. */
  lemma {:induction false} NothingElseIsAnswered(source: Fields, q: Fields, path: seq<string>)
    requires Unique(q) && path != [] && !Asked(q, path) && At(Query(source, q), path).Just?
    ensures At(q, path).Just? && At(q, path).value.Object?
    ensures At(source, path).Just? && At(source, path).value.Object?
    ensures At(Query(source, q), path).value.Object? && At(Query(source, q), path).value.fields.Field?
    decreases |path|
  {
    LookupQuery(source, q, path[0]);
    UniqueInside(q, path[0]);
    if |path| > 1 {
      NothingElseIsAnswered(Inner(source, path[0]), Inner(q, path[0]), path[1..]);
    }
  }

  /** So a GET answers every accepted query with what is stored, at exactly the paths asked for
      and the objects leading to them. */
  lemma GetAnswersExactlyWhatIsAsked(config: Fields, q: Fields, path: seq<string>)
    requires Unique(q) && path != [] && GetResult(config, Object(q)).Just?
    ensures var r := GetResult(config, Object(q)).value;
      && (Asked(q, path) ==> At(r, path) == At(config, path))
      && (!Asked(q, path) && At(r, path).Just? ==>
            && At(q, path).Just? && At(q, path).value.Object?
            && At(r, path).value.Object? && At(r, path).value.fields.Field?)
  {
    if Asked(q, path) {
      AskedIsAnswered(config, q, path);
    } else if At(Query(config, q), path).Just? {
      NothingElseIsAnswered(config, q, path);
    }
  }

  // The query that asks for everything an item sets.
  function Blank(fs: Fields): Fields {
    if fs.Nil? then Nil
    else Field(fs.key, if fs.val.Object? then Object(Blank(fs.val.fields)) else Str(""), Blank(fs.rest))
  }

  // Without the objects that hold no leaf.
  function Pruned(fs: Fields): Fields {
    if fs.Nil? then Nil
    else if fs.val.Object? then
      var child := Pruned(fs.val.fields);
      if child.Nil? then Pruned(fs.rest) else Field(fs.key, Object(child), Pruned(fs.rest))
    else Field(fs.key, fs.val, Pruned(fs.rest))
  }

  predicate NoEmptyObject(fs: Fields) {
    fs.Field? ==> (fs.val.Object? ==> fs.val.fields.Field? && NoEmptyObject(fs.val.fields)) && NoEmptyObject(fs.rest)
  }

  function Length(fs: Fields): nat {
    if fs.Nil? then 0 else 1 + Length(fs.rest)
  }

  lemma {:induction false} PrunedIsSameIff(fs: Fields)
    ensures Pruned(fs) == fs <==> NoEmptyObject(fs)
    ensures Length(Pruned(fs)) <= Length(fs)
    decreases fs
  {
    if fs.Field? {
      PrunedIsSameIff(fs.rest);
      if fs.val.Object? {
        PrunedIsSameIff(fs.val.fields);
      }
    }
  }

  lemma {:induction false} QueryOfAbsorbed(source: Fields, u: Fields)
    requires Absorbed(source, u)
    ensures Query(source, Blank(u)) == Pruned(u)
    decreases u
  {
    if u.Field? {
      QueryOfAbsorbed(source, u.rest);
      if u.val.Object? {
        QueryOfAbsorbed(Inner(source, u.key), u.val.fields);
      }
    }
  }

  lemma {:induction false} BlankSection(top: string, fs: Fields)
    requires ValidSection(top, fs)
    ensures ValidSection(top, Blank(fs)) && (IsGetQuery(Blank(fs)) <==> Pruned(fs).Field?)
    decreases fs
  {
    if fs.Field? {
      BlankSection(top, fs.rest);
    }
  }

  lemma {:induction false} BlankIsQuery(q: Fields)
    requires IsValidQuery(q)
    ensures IsValidQuery(Blank(q)) && (IsGetQuery(Blank(q)) <==> Pruned(q).Field?)
    decreases q
  {
    if q.Field? {
      BlankSection(q.key, q.val.fields);
      BlankIsQuery(q.rest);
    }
  }

  /** A GET for the fields of a PUT item answers the item itself, in the item's own field order,
      if and only if no section of the item is empty; empty sections are left out. */
  lemma GetAnswersWhatWasPut(env: Env, config: Fields, q: Fields)
    requires Unique(q) && q.Field? && PutResult(env, config, Object(q)).Ok?
    ensures var after := PutResult(env, config, Object(q)).config;
            && (GetResult(after, Object(Blank(q))) == Just(q) <==> NoEmptyObject(q))
            && (Pruned(q).Field? ==> GetResult(after, Object(Blank(q))) == Just(Pruned(q)))
  {
    SequentialOne(env, config, Object(q));
    ApplyAbsorbs(config, q);
    QueryOfAbsorbed(Apply(config, q), q);
    BlankIsQuery(q);
    PrunedIsSameIff(q);
  }

  // ---------- In place ----------

  class ConfigStore {
    var stored: Fields
    const env: Env

    constructor (config: Fields, env: Env)
      ensures stored == config && this.env == env
    {
      stored := config;
      this.env := env;
    }

    method ValidateJson(target: Fields, updates: Fields) returns (ok: bool)
      ensures ok == Validate(env, target, updates)
      decreases updates
    {
      var u := updates;
      while u.Field?
        invariant Validate(env, target, updates) == Validate(env, target, u)
        invariant u == updates || u < updates
        decreases u
      {
        if u.val.Object? && ObjectAt(target, u.key) {
          var inside := ValidateJson(Inner(target, u.key), u.val.fields);
          if !inside {
            return false;
          }
        } else if !ValidValue(env, u.key, u.val) {
          return false;
        }
        u := u.rest;
      }
      return true;
    }

    method ApplyUpdate(target: Fields, updates: Fields) returns (result: Fields)
      ensures result == Apply(target, updates)
      decreases updates
    {
      result := target;
      var u := updates;
      while u.Field?
        invariant Apply(target, updates) == Apply(result, u)
        invariant u == updates || u < updates
        decreases u
      {
        if u.val.Object? && ObjectAt(result, u.key) {
          var inside := ApplyUpdate(Inner(result, u.key), u.val.fields);
          result := Put(result, u.key, Object(inside));
        } else {
          result := Put(result, u.key, u.val);
        }
        u := u.rest;
      }
    }

    method UpdateAll(config: Fields, items: seq<Json>) returns (r: Outcome)
      requires forall i :: 0 <= i < |items| ==> items[i].Object?
      ensures r == Sequential(env, config, items)
    {
      var tree, i := config, 0;
      while i < |items|
        invariant 0 <= i <= |items|
        invariant Sequential(env, config, items) == Sequential(env, tree, items[i..])
      {
        var ok := ValidateJson(tree, items[i].fields);
        if !ok {
          return Refused(UpdateFailed);
        }
        tree := ApplyUpdate(tree, items[i].fields);
        assert items[i..][1..] == items[i + 1..];
        i := i + 1;
      }
      return Ok(tree);
    }

    method Decide(query: Json) returns (r: Outcome)
      ensures r == PutResult(env, stored, query)
    {
      match query
      case Object(q) =>
        if !IsValidQuery(q) {
          return Refused(InvalidQuery);
        }
        r := UpdateAll(stored, [query]);
      case Array(items) =>
        if |items| <= 0 || |items| > 12 {
          return Refused(BadLength);
        }
        for i := 0 to |items|
          invariant forall k :: 0 <= k < i ==> GoodItem(items[k])
        {
          if !GoodItem(items[i]) {
            return Refused(InvalidItem);
          }
        }
        r := UpdateAll(stored, items);
      case _ =>
        return Refused(UnsupportedType);
    }

    // The file is written only after every item was applied.
    method HandlePut(query: Json) returns (r: Outcome)
      modifies this
      ensures r == PutResult(env, old(stored), query)
      ensures stored == if r.Ok? then r.config else old(stored)
    {
      r := Decide(query);
      if r.Ok? {
        stored := r.config;
      }
    }

    method HandleGet(query: Json) returns (r: Maybe<Fields>)
      ensures r == GetResult(stored, query)
    {
      if !query.Object? || !IsValidQuery(query.fields) || !IsGetQuery(query.fields) {
        return Nothing;
      }
      return Just(Query(stored, query.fields));
    }
  }
}
