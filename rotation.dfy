/**
 * Key rotation (src/main.rs): `rotate` for one profile against IAM, and the
 * driver that rotates every requested profile, merges the new keys into the
 * registry and writes them back unless it is a dry run.
 */
module Rotation {
  import opened Wrappers
  import opened Errors
  import opened Ini
  import opened AwsConfig

  /** One request to IAM: the key the client was authenticated with, what it asked, and IAM's answer. */
  datatype Call =
    | CreateAccessKey(caller: AWSConfig, created: Result<AWSConfig, string>)
    | DeleteAccessKey(caller: AWSConfig, accessKeyId: string, deleted: Result<(), string>)

  /**
   * The IAM service as the program sees it.  Its answers are not under the
   * program's control, so each request may succeed with any key or fail with
   * any message; `log` records every request in order.
   */
  class IamService {
    ghost var log: seq<Call>

    /** `create_access_key`, for the identity that owns `caller`. */
    method CreateAccessKey(caller: AWSConfig) returns (created: Result<AWSConfig, string>)
      modifies this
      ensures log == old(log) + [Call.CreateAccessKey(caller, created)]
    {
      created :| true;
      log := log + [Call.CreateAccessKey(caller, created)];
    }

    /** `delete_access_key` of `accessKeyId`, authenticated as `caller`. */
    method DeleteAccessKey(caller: AWSConfig, accessKeyId: string) returns (deleted: Result<(), string>)
      modifies this
      ensures log == old(log) + [Call.DeleteAccessKey(caller, accessKeyId, deleted)]
    {
      deleted :| true;
      log := log + [Call.DeleteAccessKey(caller, accessKeyId, deleted)];
    }
  }

  /** The triple `rotate` returns on success: the profile and its new key. */
  datatype NewKey = NewKey(profile: string, accessKeyId: string, secretAccessKey: string)

  /**
   * How one spawned rotation ends: `rotate` returned Ok or Err, or it
   * panicked (the `unwrap` of the delete answer).
   */
  datatype TaskOutcome = Rotated(key: NewKey) | Failed(error: RotateError) | Panicked(reason: string)

  function NotFoundError(profile: string): RotateError
  {
    RotateError("Profile: " + profile + " does not exist in credentials file")
  }

  /** The key a default `CreateAccessKeyResponse` holds: both strings empty. */
  const DefaultKey: AWSConfig := AWSConfig("", "")

  /**
   * The requests one rotation of `profile` makes and how it ends.  An unknown
   * profile fails with no request; a dry run makes no request and reports the
   * empty default key; otherwise one create authenticated as the old key, and
   * only if it succeeds, one delete of the old key id authenticated as the
   * new key, after which the new key is reported.
   */
  ghost predicate IsRotationTrace(profile: string, profiles: Registry, dryRun: bool, trace: seq<Call>, out: TaskOutcome)
  {
    if profile !in profiles then
      trace == [] && out == Failed(NotFoundError(profile))
    else if dryRun then
      trace == [] && out == Rotated(NewKey(profile, DefaultKey.accessKeyId, DefaultKey.secretAccessKey))
    else
      var oldKey := profiles[profile];
      && |trace| >= 1
      && trace[0].CreateAccessKey?
      && trace[0].caller == oldKey
      && match trace[0].created
         case Err(e) =>
           trace == [trace[0]] && out == Failed(RotateError(e))
         case Ok(newKey) =>
           && |trace| == 2
           && trace[1].DeleteAccessKey?
           && trace[1].caller == newKey
           && trace[1].accessKeyId == oldKey.accessKeyId
           && out == match trace[1].deleted
                     case Ok(_) => Rotated(NewKey(profile, newKey.accessKeyId, newKey.secretAccessKey))
                     case Err(e) => Panicked(e)
  }

  /** `rotate`: the client is modelled by the key it authenticates with. */
  method Rotate(profile: string, profiles: Registry, dryRun: bool, iam: IamService) returns (out: TaskOutcome)
    modifies iam
    ensures old(iam.log) <= iam.log
    ensures IsRotationTrace(profile, profiles, dryRun, iam.log[|old(iam.log)|..], out)
  {
    if profile !in profiles {
      return Failed(NotFoundError(profile));
    }
    var oldProfile := profiles[profile];
    var client := oldProfile;
    var newResp := DefaultKey;
    if !dryRun {
      var created := iam.CreateAccessKey(client);
      if created.Err? {
        return Failed(RotateError(created.error));
      }
      newResp := created.value;
      client := newResp;
    }
    if !dryRun {
      var deleted := iam.DeleteAccessKey(client, oldProfile.accessKeyId);
      if deleted.Err? {
        return Panicked(deleted.error);
      }
    }
    out := Rotated(NewKey(profile, newResp.accessKeyId, newResp.secretAccessKey));
  }

  /** A rotation that reports a key reports it for the profile it was asked for, which is in the registry. */
  lemma RotatedIsRequested(profile: string, profiles: Registry, dryRun: bool, trace: seq<Call>, out: TaskOutcome)
    requires IsRotationTrace(profile, profiles, dryRun, trace, out)
    ensures out.Rotated? ==> out.key.profile == profile && profile in profiles
    ensures dryRun ==> trace == []
  {
  }

  /** An unknown profile, or any profile in a dry run, makes no request to IAM. */
  lemma NoRequestWithoutRotation(profile: string, profiles: Registry, dryRun: bool, trace: seq<Call>, out: TaskOutcome)
    requires IsRotationTrace(profile, profiles, dryRun, trace, out)
    requires profile !in profiles || dryRun
    ensures trace == []
    ensures profile !in profiles ==> out.Failed?
    ensures profile in profiles ==> out == Rotated(NewKey(profile, "", ""))
  {
  }

  /**
   * Every delete comes after a successful create by the old key, is
   * authenticated as the key that create returned and retires the old key id;
   * a failed create is never followed by a delete.
   */
  lemma DeleteFollowsCreate(profile: string, profiles: Registry, dryRun: bool, trace: seq<Call>, out: TaskOutcome, j: nat)
    requires IsRotationTrace(profile, profiles, dryRun, trace, out)
    requires j < |trace| && trace[j].DeleteAccessKey?
    ensures profile in profiles && !dryRun
    ensures exists i :: 0 <= i < j && trace[i].CreateAccessKey? && trace[i].caller == profiles[profile]
                      && trace[i].created.Ok? && trace[j].caller == trace[i].created.value
    ensures trace[j].accessKeyId == profiles[profile].accessKeyId
  {
  }

  /** A rotation that reports a new key reports the profile asked for and exactly the key IAM created. */
  lemma RotatedKeyWasCreated(profile: string, profiles: Registry, trace: seq<Call>, out: TaskOutcome)
    requires IsRotationTrace(profile, profiles, false, trace, out)
    requires out.Rotated?
    ensures out.key.profile == profile && profile in profiles
    ensures |trace| == 2 && trace[0] == CreateAccessKey(profiles[profile], Ok(AWSConfig(out.key.accessKeyId, out.key.secretAccessKey)))
    ensures trace[1] == DeleteAccessKey(AWSConfig(out.key.accessKeyId, out.key.secretAccessKey), profiles[profile].accessKeyId, Ok(()))
  {
    assert trace[1].deleted.Ok?;
    // the solver does not know on its own that `()` is the only unit value
    var u := trace[1].deleted.value;
    assert u == ();
  }

  // ---------------------------------------------------------------------------
  // main: fan-out, merge, write gate

  predicate AllRotated(outcomes: seq<TaskOutcome>)
  {
    forall i :: 0 <= i < |outcomes| ==> outcomes[i].Rotated?
  }

  /** Every outcome is a new key for a profile of the registry. */
  predicate Mergeable(profiles: Registry, outcomes: seq<TaskOutcome>)
  {
    forall i :: 0 <= i < |outcomes| ==> outcomes[i].Rotated? && outcomes[i].key.profile in profiles
  }

  /**
   * The merge loop of `main`: in order, each returned profile's entry takes
   * the returned key.  The registry's profiles stay the same.
   */
  function MergeResults(profiles: Registry, outcomes: seq<TaskOutcome>): (merged: Registry)
    requires Mergeable(profiles, outcomes)
    ensures merged.Keys == profiles.Keys
  {
    if outcomes == [] then profiles
    else
      var key := outcomes[|outcomes| - 1].key;
      var before := MergeResults(profiles, outcomes[..|outcomes| - 1]);
      before[key.profile := before[key.profile].(accessKeyId := key.accessKeyId, secretAccessKey := key.secretAccessKey)]
  }

  /** A profile that no task returned keeps its original key. */
  lemma {:induction false} MergeUntouched(profiles: Registry, outcomes: seq<TaskOutcome>, p: string)
    requires Mergeable(profiles, outcomes) && p in profiles
    requires forall i :: 0 <= i < |outcomes| ==> outcomes[i].key.profile != p
    ensures MergeResults(profiles, outcomes)[p] == profiles[p]
  {
    if outcomes != [] {
      MergeUntouched(profiles, outcomes[..|outcomes| - 1], p);
    }
  }

  /** A returned profile ends up with the key of the last task that returned it. */
  lemma {:induction false} MergeLastWins(profiles: Registry, outcomes: seq<TaskOutcome>, i: nat)
    requires Mergeable(profiles, outcomes) && i < |outcomes|
    requires forall j :: i < j < |outcomes| ==> outcomes[j].key.profile != outcomes[i].key.profile
    ensures MergeResults(profiles, outcomes)[outcomes[i].key.profile]
         == AWSConfig(outcomes[i].key.accessKeyId, outcomes[i].key.secretAccessKey)
  {
    if i < |outcomes| - 1 {
      MergeLastWins(profiles, outcomes[..|outcomes| - 1], i);
    }
  }

  function Flatten(traces: seq<seq<Call>>): seq<Call>
  {
    if traces == [] then [] else Flatten(traces[..|traces| - 1]) + traces[|traces| - 1]
  }

  /**
   * After the spawned rotations all returned, the merged registry gives each
   * requested profile the key IAM created in that profile's last rotation
   * (the empty default key in a dry run), and every other profile its
   * original key.
   */
  lemma MergedKeysAreCreated(profiles: Registry, argProfiles: seq<string>, dryRun: bool,
                             traces: seq<seq<Call>>, outcomes: seq<TaskOutcome>, p: string)
    requires |outcomes| == |traces| == |argProfiles|
    requires forall i :: 0 <= i < |argProfiles| ==> IsRotationTrace(argProfiles[i], profiles, dryRun, traces[i], outcomes[i])
    requires AllRotated(outcomes) && p in profiles
    ensures Mergeable(profiles, outcomes)
    ensures p !in argProfiles ==> MergeResults(profiles, outcomes)[p] == profiles[p]
    ensures forall i :: 0 <= i < |argProfiles| && argProfiles[i] == p
                        && (forall j :: i < j < |argProfiles| ==> argProfiles[j] != p) ==>
              && (dryRun ==> MergeResults(profiles, outcomes)[p] == DefaultKey)
              && (!dryRun ==> (|traces[i]| == 2
                               && traces[i][0] == CreateAccessKey(profiles[p], Ok(MergeResults(profiles, outcomes)[p]))))
  {
    forall i | 0 <= i < |argProfiles|
      ensures outcomes[i].key.profile == argProfiles[i] && argProfiles[i] in profiles
    {
      RotatedIsRequested(argProfiles[i], profiles, dryRun, traces[i], outcomes[i]);
    }
    if p !in argProfiles {
      MergeUntouched(profiles, outcomes, p);
    }
    forall i | 0 <= i < |argProfiles| && argProfiles[i] == p
               && (forall j :: i < j < |argProfiles| ==> argProfiles[j] != p)
      ensures dryRun ==> MergeResults(profiles, outcomes)[p] == DefaultKey
      ensures !dryRun ==> (|traces[i]| == 2
                           && traces[i][0] == CreateAccessKey(profiles[p], Ok(MergeResults(profiles, outcomes)[p])))
    {
      MergeLastWins(profiles, outcomes, i);
      if !dryRun {
        RotatedKeyWasCreated(p, profiles, traces[i], outcomes[i]);
      }
    }
  }

  /** How `main` ends: Ok, Err, or a panic (an `unwrap` on a failed task). */
  datatype Exit = Success | Failure(error: RotateError) | Panic

  /**
   * The spawning loop of `main`: one rotation per requested profile, in
   * order, each handed the same registry value (its own clone), so that no
   * rotation sees another's result.
   */
  method SpawnAll(argProfiles: seq<string>, profiles: Registry, dryRun: bool, iam: IamService)
    returns (outcomes: seq<TaskOutcome>, ghost traces: seq<seq<Call>>)
    modifies iam
    ensures |outcomes| == |traces| == |argProfiles|
    ensures iam.log == old(iam.log) + Flatten(traces)
    ensures forall i :: 0 <= i < |argProfiles| ==> IsRotationTrace(argProfiles[i], profiles, dryRun, traces[i], outcomes[i])
    ensures forall i :: 0 <= i < |argProfiles| && outcomes[i].Rotated? ==> outcomes[i].key.profile in profiles
    ensures dryRun ==> iam.log == old(iam.log)
  {
    outcomes, traces := [], [];
    var k := 0;
    while k < |argProfiles|
      invariant k <= |argProfiles| && |outcomes| == |traces| == k
      invariant iam.log == old(iam.log) + Flatten(traces)
      invariant forall i :: 0 <= i < k ==> IsRotationTrace(argProfiles[i], profiles, dryRun, traces[i], outcomes[i])
      invariant forall i :: 0 <= i < k && outcomes[i].Rotated? ==> outcomes[i].key.profile in profiles
      invariant dryRun ==> iam.log == old(iam.log)
    {
      ghost var before := iam.log;
      var out := Rotate(argProfiles[k], profiles, dryRun, iam);
      RotatedIsRequested(argProfiles[k], profiles, dryRun, iam.log[|before|..], out);
      traces := traces + [iam.log[|before|..]];
      outcomes := outcomes + [out];
      assert traces[..k] == traces[..|traces| - 1];
      k := k + 1;
    }
  }

  /**
   * The result loop of `main`: `result.unwrap().unwrap()` panics (None) at
   * the first task that did not return a key; otherwise every returned key is
   * written into its profile's entry.  `get_mut(..).unwrap()` cannot fail,
   * since every returned profile is in the registry.
   */
  method JoinAll(profiles: Registry, outcomes: seq<TaskOutcome>) returns (merged: Option<Registry>)
    requires forall i :: 0 <= i < |outcomes| && outcomes[i].Rotated? ==> outcomes[i].key.profile in profiles
    ensures AllRotated(outcomes) <==> merged.Some?
    ensures merged.Some? ==> Mergeable(profiles, outcomes) && merged.value == MergeResults(profiles, outcomes)
  {
    var current := profiles;
    var i := 0;
    while i < |outcomes|
      invariant i <= |outcomes|
      invariant Mergeable(profiles, outcomes[..i])
      invariant current == MergeResults(profiles, outcomes[..i])
    {
      if !outcomes[i].Rotated? {
        return None;
      }
      var key := outcomes[i].key;
      current := current[key.profile := current[key.profile].(accessKeyId := key.accessKeyId, secretAccessKey := key.secretAccessKey)];
      assert outcomes[..i + 1][..i] == outcomes[..i];
      i := i + 1;
    }
    assert outcomes[..i] == outcomes;
    merged := Some(current);
  }

  /**
   * `main` after argument parsing.  `conf` and `cred` are the two documents as
   * loaded for the registry; `reloaded` and `writeFailure` are what
   * `write_credentials` meets when it loads and writes the credentials file.
   * `written` is the document written to the credentials file, if any.
   */
  method Run(argProfiles: seq<string>, conf: Document, cred: Document, dryRun: bool,
             credPath: string, reloaded: Result<Document, string>, writeFailure: Option<string>, iam: IamService)
    returns (exit: Exit, written: Option<Document>, outcomes: seq<TaskOutcome>, ghost traces: seq<seq<Call>>)
    requires NoSplitPanic(conf, cred)
    modifies iam
    ensures var parsed := ParseResult(conf, cred);
      parsed.Err? ==> exit == Failure(parsed.error) && written == None && iam.log == old(iam.log)
    ensures var parsed := ParseResult(conf, cred);
      parsed.Ok? ==>
        && |outcomes| == |traces| == |argProfiles|
        && iam.log == old(iam.log) + Flatten(traces)
        && (forall i :: 0 <= i < |argProfiles| ==> IsRotationTrace(argProfiles[i], parsed.value, dryRun, traces[i], outcomes[i]))
        && (!AllRotated(outcomes) ==> exit == Panic && written == None)
        && (AllRotated(outcomes) && dryRun ==> exit == Success && written == None)
        && (AllRotated(outcomes) && !dryRun ==>
              && Mergeable(parsed.value, outcomes)
              && IsWrittenDocument(MergeResults(parsed.value, outcomes), reloaded, written)
              && var r := WriteResult(credPath, reloaded, writeFailure);
                 exit == if r.Ok? then Success else Failure(WriteError(r.error.message)))
    ensures dryRun ==> iam.log == old(iam.log)
  {
    outcomes, traces := [], [];
    var parsed := ParseConfigFiles(conf, cred);
    if parsed.Err? {
      return Failure(parsed.error), None, outcomes, traces;
    }
    var profiles := parsed.value;
    outcomes, traces := SpawnAll(argProfiles, profiles, dryRun, iam);
    var merged := JoinAll(profiles, outcomes);
    if merged.None? {
      return Panic, None, outcomes, traces;
    }
    if dryRun {
      return Success, None, outcomes, traces;
    }
    var r;
    written, r := WriteCredentials(merged.value, credPath, reloaded, writeFailure);
    exit := if r.Ok? then Success else Failure(WriteError(r.error.message));
  }
}
