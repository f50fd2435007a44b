/** Saving changed settings: what a change did to the settings in effect is carried over to
    the saved ones, which may differ (command-line overrides are in effect but not saved). */
module SettingsMerge {
  import opened Wrappers

  /** A settings tree; `Leaf` stands for everything that is not an object. */
  datatype Json =
    | Leaf(text: string)
    | Object(fields: map<string, Json>)

  /** `target` with what the change from `before` to `after` did done to it. */
  function Merge(target: Json, before: Json, after: Json): Json
    decreases after
  {
    if before == after then target
    else if target.Object? && before.Object? && after.Object? then
      Object(map k | k in target.fields.Keys + after.fields.Keys && Stays(target, before, after, k) ::
        MergedField(target, before, after, k))
    else after
  }

  /** A field is there after the merge unless the change removed it, or it was missing from
      the saved settings and the change left it as it was. */
  predicate Stays(target: Json, before: Json, after: Json, k: string)
    requires target.Object? && before.Object? && after.Object?
  {
    if k in after.fields then
      k in target.fields || k !in before.fields || before.fields[k] != after.fields[k]
    else k in target.fields && k !in before.fields
  }

  function MergedField(target: Json, before: Json, after: Json, k: string): Json
    requires target.Object? && before.Object? && after.Object?
    requires k in target.fields.Keys + after.fields.Keys && Stays(target, before, after, k)
    decreases after, 0
  {
    if k !in after.fields then target.fields[k]
    else if k in before.fields && k in target.fields then
      Merge(target.fields[k], before.fields[k], after.fields[k])
    else after.fields[k]
  }

  // ----- paths ------------------------------------------------------------------------

  /** The subtree at a path of field names, if there is one. */
  function At(j: Json, path: seq<string>): Option<Json> {
    if path == [] then Some(j)
    else if j.Object? && path[0] in j.fields then At(j.fields[path[0]], path[1..])
    else None
  }

  // ----- the laws ---------------------------------------------------------------------

  /** Merged into an unmodified copy of the settings before, a change gives the settings after. */
  lemma {:induction false} FromUnmodified(before: Json, after: Json)
    ensures Merge(before, before, after) == after
    decreases after
  {
    if before != after && before.Object? && after.Object? {
      var merged := Merge(before, before, after);
      forall k | k in after.fields ensures k in merged.fields && merged.fields[k] == after.fields[k] {
        assert merged.fields[k] == MergedField(before, before, after, k);
        if k in before.fields {
          FromUnmodified(before.fields[k], after.fields[k]);
        }
      }
      assert merged.fields == after.fields;
    }
  }

  /** A change saved once more changes nothing. */
  lemma {:induction false} Idempotent(target: Json, before: Json, after: Json)
    ensures Merge(Merge(target, before, after), before, after) == Merge(target, before, after)
    decreases after
  {
    var once := Merge(target, before, after);
    if before != after && target.Object? && before.Object? && after.Object? {
      var twice := Merge(once, before, after);
      forall k | k in once.fields ensures k in twice.fields && twice.fields[k] == once.fields[k] {
        assert once.fields[k] == MergedField(target, before, after, k);
        assert twice.fields[k] == MergedField(once, before, after, k);
        if k in after.fields && k in before.fields {
          if k in target.fields {
            Idempotent(target.fields[k], before.fields[k], after.fields[k]);
          } else {
            FromUnmodified(before.fields[k], after.fields[k]);
            AfterStays(before.fields[k], after.fields[k]);
          }
        }
      }
      assert twice.fields == once.fields;
    } else if before != after {
      AfterStays(before, after);
    }
  }

  /** Settings that are already as after the change stay so. */
  lemma {:induction false} AfterStays(before: Json, after: Json)
    ensures Merge(after, before, after) == after
    decreases after
  {
    if before != after && before.Object? && after.Object? {
      var merged := Merge(after, before, after);
      forall k | k in after.fields ensures k in merged.fields && merged.fields[k] == after.fields[k] {
        assert merged.fields[k] == MergedField(after, before, after, k);
        if k in before.fields {
          AfterStays(before.fields[k], after.fields[k]);
        }
      }
      assert merged.fields == after.fields;
    }
  }

  /** The merge gets down to `path` field by field: where the settings before and after
      differ, all three trees are objects that go on the same way. */
  predicate Shared(target: Json, before: Json, after: Json, path: seq<string>) {
    before == after || path == [] ||
    (&& target.Object? && before.Object? && after.Object?
     && var k, t, b, a := path[0], target.fields, before.fields, after.fields;
        || (k !in b && k !in a)
        || (k in b && k in a && b[k] == a[k])
        || (k in t && k in b && k in a && Shared(t[k], b[k], a[k], path[1..])))
  }

  /** Where the settings before and after agree, at any depth: when the merge gets down to
      there, the saved settings are left as they were, present or absent; otherwise an enclosing
      section is taken over whole, and with it what `after` has there. */
  lemma {:induction false} AgreementKept(target: Json, before: Json, after: Json, path: seq<string>)
    requires At(before, path) == At(after, path)
    ensures At(Merge(target, before, after), path) ==
      if Shared(target, before, after, path) then At(target, path) else At(after, path)
    decreases path
  {
    if before != after && path != [] && target.Object? && before.Object? && after.Object? {
      var k, merged := path[0], Merge(target, before, after);
      if k in merged.fields {
        assert merged.fields[k] == MergedField(target, before, after, k);
      }
      if k in target.fields && k in before.fields && k in after.fields {
        AgreementKept(target.fields[k], before.fields[k], after.fields[k], path[1..]);
      }
    }
  }

  /** So what agrees is left as it was exactly when the merge gets down to it, or it is saved
      as it is in effect anyway. */
  lemma AgreementKeptExactly(target: Json, before: Json, after: Json, path: seq<string>)
    requires At(before, path) == At(after, path)
    ensures At(Merge(target, before, after), path) == At(target, path) <==>
      Shared(target, before, after, path) || At(target, path) == At(after, path)
  {
    AgreementKept(target, before, after, path);
  }

  /** Trees with the same sections and fields all the way down. */
  predicate SameShape(a: Json, b: Json)
    decreases a
  {
    if a.Object? && b.Object?
    then a.fields.Keys == b.fields.Keys && forall k :: k in a.fields ==> SameShape(a.fields[k], b.fields[k])
    else a.Leaf? && b.Leaf?
  }

  /** In settings of one shape, all that a change leaves alone stays as it was saved. */
  lemma {:induction false} SameShapeKept(target: Json, before: Json, after: Json, path: seq<string>)
    requires SameShape(target, before) && SameShape(before, after) && At(before, path) == At(after, path)
    ensures At(Merge(target, before, after), path) == At(target, path)
    decreases path
  {
    if before != after && path != [] && before.Object? && path[0] in before.fields {
      var k := path[0];
      SameShapeKept(target.fields[k], before.fields[k], after.fields[k], path[1..]);
    }
    AgreementKept(target, before, after, path);
  }

  /** Settings with these other sections, these other settings for OBS and this backup of its
      own, or none. */
  function WithBackup(rest: map<string, Json>, obs: map<string, Json>, backup: Json): Json {
    Object(rest["obs" := Object(obs["backup" := backup])])
  }

  /** Agreement alone is not enough, whatever else there is in the settings: the backup's server
      arrives with a change of its service type, in a file whose backup was `null`. */
  lemma AgreementNotAlwaysKept(rest: map<string, Json>, obs: map<string, Json>, server: Json)
    ensures var was := Object(map["service_type" := Leaf("rtmp_common"), "obs" := server]);
      var changed := Object(map["service_type" := Leaf("rtmp_custom"), "obs" := server]);
      var target := WithBackup(rest, obs, Leaf("null"));
      var before, after := WithBackup(rest, obs, was), WithBackup(rest, obs, changed);
      var path := ["obs", "backup", "obs"];
      && At(before, path) == At(after, path) == Some(server)
      && At(target, path) == None
      && At(Merge(target, before, after), path) == Some(server)
  {
    var was := Object(map["service_type" := Leaf("rtmp_common"), "obs" := server]);
    var changed := Object(map["service_type" := Leaf("rtmp_custom"), "obs" := server]);
    var target := WithBackup(rest, obs, Leaf("null"));
    var before, after := WithBackup(rest, obs, was), WithBackup(rest, obs, changed);
    var path := ["obs", "backup", "obs"];
    assert was.fields["service_type"] != changed.fields["service_type"];
    assert before.fields["obs"].fields["backup"] != after.fields["obs"].fields["backup"];
    assert path[1..] == ["backup", "obs"] && path[1..][1..] == ["obs"] && path[1..][1..][1..] == [];
    InBackup(rest, obs, Leaf("null"));
    InBackup(rest, obs, was);
    InBackup(rest, obs, changed);
    AgreementKept(target, before, after, path);
    assert !Shared(target, before, after, path) by {
      assert !Shared(Leaf("null"), was, changed, path[1..][1..]);
      assert !Shared(target.fields["obs"], before.fields["obs"], after.fields["obs"], path[1..]);
    }
  }

  lemma InBackup(rest: map<string, Json>, obs: map<string, Json>, backup: Json)
    ensures At(WithBackup(rest, obs, backup), ["obs", "backup", "obs"]) ==
      if backup.Object? && "obs" in backup.fields then Some(backup.fields["obs"]) else None
  {
    var j, path := WithBackup(rest, obs, backup), ["obs", "backup", "obs"];
    assert path[1..] == ["backup", "obs"] && path[1..][1..] == ["obs"] && path[1..][1..][1..] == [];
    assert At(j, path) == At(j.fields["obs"], path[1..]);
    assert At(j.fields["obs"], path[1..]) == At(backup, path[1..][1..]);
    assert At(backup, ["obs"]) ==
      if backup.Object? && "obs" in backup.fields then At(backup.fields["obs"], []) else None;
  }

  /** What a change sets to another value at a single setting is in the saved settings. */
  lemma {:induction false} ChangeArrives(target: Json, before: Json, after: Json, path: seq<string>)
    requires At(after, path).Some? && At(before, path) != At(after, path)
    requires At(after, path).value.Leaf?
    ensures At(Merge(target, before, after), path) == At(after, path)
    decreases path
  {
    if path != [] && target.Object? && before.Object? {
      var k, merged := path[0], Merge(target, before, after);
      if k in merged.fields {
        assert merged.fields[k] == MergedField(target, before, after, k);
      }
      if k in target.fields && k in before.fields {
        ChangeArrives(target.fields[k], before.fields[k], after.fields[k], path[1..]);
      }
    }
  }

  // ----- as it runs -------------------------------------------------------------------

  /** The target once the fields in `done`, all of `after`'s, have been looked at. */
  ghost function Edited(target: Json, before: Json, after: Json, done: set<string>): map<string, Json>
    requires target.Object? && before.Object? && after.Object? && done <= after.fields.Keys
  {
    map k | k in target.fields.Keys + done && (k in done ==> Stays(target, before, after, k)) ::
      if k in done then MergedField(target, before, after, k) else target.fields[k]
  }

  lemma EditedMore(target: Json, before: Json, after: Json, done: set<string>, k: string)
    requires target.Object? && before.Object? && after.Object? && done <= after.fields.Keys
    requires k in after.fields && k !in done
    ensures Edited(target, before, after, done + {k}) ==
      if Stays(target, before, after, k)
      then Edited(target, before, after, done)[k := MergedField(target, before, after, k)]
      else Edited(target, before, after, done)
  {
    hide MergedField;
  }

  lemma EditedNone(target: Json, before: Json, after: Json)
    requires target.Object? && before.Object? && after.Object?
    ensures Edited(target, before, after, {}) == target.fields
  {
  }

  lemma EditedAll(target: Json, before: Json, after: Json)
    requires target.Object? && before.Object? && after.Object? && before != after
    ensures Object(Edited(target, before, after, after.fields.Keys) - (before.fields.Keys - after.fields.Keys))
      == Merge(target, before, after)
  {
    var all := Edited(target, before, after, after.fields.Keys) - (before.fields.Keys - after.fields.Keys);
    var merged := Merge(target, before, after).fields;
    forall k | k in all ensures k in merged && merged[k] == all[k] {
      assert merged[k] == MergedField(target, before, after, k);
    }
    assert all == merged;
  }

  /** One field of `after`, carried over to `t`. */
  method CopyField(t: map<string, Json>, target: Json, before: Json, after: Json, ghost done: set<string>, k: string)
    returns (r: map<string, Json>)
    requires target.Object? && before.Object? && after.Object?
    requires done <= after.fields.Keys && k in after.fields && k !in done
    requires t == Edited(target, before, after, done)
    ensures r == Edited(target, before, after, done + {k})
    decreases after, 0
  {
    EditedMore(target, before, after, done, k);
    var a := after.fields[k];
    if k in before.fields && k in t {
      var merged := CopyChanges(t[k], before.fields[k], a);
      r := t[k := merged];
    } else if k in before.fields && before.fields[k] == a {
      r := t;
    } else {
      r := t[k := a];
    }
  }

  method SetFields(target: Json, before: Json, after: Json) returns (t: map<string, Json>)
    requires target.Object? && before.Object? && after.Object?
    ensures t == Edited(target, before, after, after.fields.Keys)
    decreases after, 1
  {
    hide Edited;
    EditedNone(target, before, after);
    t := target.fields;
    var keys := after.fields.Keys;
    var left := keys;
    ghost var done: set<string> := {};
    while left != {}
      invariant done <= keys && left == keys - done
      invariant t == Edited(target, before, after, done)
      decreases |left|
    {
      var k :| k in left;
      t := CopyField(t, target, before, after, done, k);
      OneFewer(keys, left, done, k);
      done := done + {k};
      left := left - {k};
    }
    assert done == keys;
  }

  lemma OneFewer(keys: set<string>, left: set<string>, done: set<string>, k: string)
    requires done <= keys && left == keys - done && k in left
    ensures done + {k} <= keys && left - {k} == keys - (done + {k}) && |left - {k}| < |left|
  {
  }

  method RemoveFields(fields: map<string, Json>, keys: set<string>) returns (t: map<string, Json>)
    ensures t == fields - keys
  {
    t := fields;
    var left := keys;
    while left != {}
      invariant left <= keys && t == fields - (keys - left)
      decreases |left|
    {
      var k :| k in left;
      t, left := t - {k}, left - {k};
    }
    assert keys - {} == keys;
  }

  /** Edits the target's fields one by one: first what the change set, then what it removed. */
  method CopyChanges(target: Json, before: Json, after: Json) returns (r: Json)
    ensures r == Merge(target, before, after)
    decreases after
  {
    if before == after {
      return target;
    }
    if !target.Object? || !before.Object? || !after.Object? {
      return after;
    }
    var t := SetFields(target, before, after);
    t := RemoveFields(t, before.fields.Keys - after.fields.Keys);
    EditedAll(target, before, after);
    r := Object(t);
  }

  /** The settings in effect, which include this run's overrides, and those in the file. */
  class Settings {
    var saved: Json
    var inEffect: Json

    constructor (saved: Json, inEffect: Json)
      ensures this.saved == saved && this.inEffect == inEffect
    {
      this.saved, this.inEffect := saved, inEffect;
    }

    /** Makes a change; `writes` is whether the file can be written. */
    method Save(after: Json, writes: bool) returns (ok: bool)
      modifies this
      ensures ok == writes
      ensures ok ==> inEffect == after && saved == Merge(old(saved), old(inEffect), after)
      ensures !ok ==> inEffect == old(inEffect) && saved == old(saved)
    {
      var merged := CopyChanges(saved, inEffect, after);
      if !writes {
        return false;
      }
      saved, inEffect := merged, after;
      ok := true;
    }
  }

  /** What is saved after a series of changes. */
  function SavedAfter(saved: Json, inEffect: Json, changes: seq<Json>): Json
    decreases |changes|
  {
    if changes == [] then saved
    else SavedAfter(Merge(saved, inEffect, changes[0]), changes[0], changes[1..])
  }

  /** Without overrides the file always holds what is in effect. */
  lemma {:induction false} NoOverrides(inEffect: Json, changes: seq<Json>)
    ensures SavedAfter(inEffect, inEffect, changes) == if changes == [] then inEffect else changes[|changes| - 1]
    decreases |changes|
  {
    if changes != [] {
      FromUnmodified(inEffect, changes[0]);
      NoOverrides(changes[0], changes[1..]);
    }
  }

  /** No change touches the setting at `path`, and each gets down to it. */
  predicate Untouched(saved: Json, inEffect: Json, changes: seq<Json>, path: seq<string>)
    decreases |changes|
  {
    changes == [] ||
    (&& At(inEffect, path) == At(changes[0], path)
     && Shared(saved, inEffect, changes[0], path)
     && Untouched(Merge(saved, inEffect, changes[0]), changes[0], changes[1..], path))
  }

  /** An override no change touches never reaches the file. */
  lemma {:induction false} OverridesStayOut(saved: Json, inEffect: Json, changes: seq<Json>, path: seq<string>)
    requires Untouched(saved, inEffect, changes, path)
    ensures At(SavedAfter(saved, inEffect, changes), path) == At(saved, path)
    decreases |changes|
  {
    if changes != [] {
      AgreementKept(saved, inEffect, changes[0], path);
      OverridesStayOut(Merge(saved, inEffect, changes[0]), changes[0], changes[1..], path);
    }
  }
}
