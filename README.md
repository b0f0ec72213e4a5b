# aws-rotate-iam-keys: a Dafny model of the rotation core

The program rotates AWS IAM access keys for named profiles. It reads
`~/.aws/config` to learn which profiles exist and `~/.aws/credentials` to
learn each profile's key pair. For every requested profile it creates a new
key while authenticated as the old key, then deletes the old key while
authenticated as the new one. It merges the new keys into the registry and,
unless it is a dry run, writes them back into the credentials file without
disturbing anything else there.

The model has five modules, one file each:

- `Wrappers` (`wrappers.dfy`): `Option` and `Result`.
- `Errors` (`errors.dfy`): `RotateError`, the program's message-only error.
- `Ini` (`ini.dfy`): the INI document, abstracted from its text as an
  ordered sequence of sections. Each section has an optional name and a
  key/value map. There are two operations. A lookup finds the first section
  with the given name. Setting a key updates that section, or appends a new
  section when there is none.
- `AwsConfig` (`aws_config.dfy`, for `src/aws_config.rs`): the key pair
  `AWSConfig`, `split_whitespace`, the registry build `ParseConfigFiles`, the
  non-destructive `WriteCredentials`, and `GetConfigPath`.
- `Rotation` (`rotation.dfy`, for `src/main.rs`): IAM as a class with a
  ghost log of requests; `Rotate`; the spawning loop `SpawnAll`; the result
  loop `JoinAll`; the write gate `Run`.

`ParseConfigFiles` and `WriteCredentials` are methods with loops, like the
source. `ParseConfigFiles` is proved equal to a fold, `ParsePrefix`, and the
lemmas beside it say what that fold yields. `WriteCredentials` is proved to
leave a document in which every later lookup sees the merge (`MergedInto`).
`Rotate` is proved to leave in the IAM log exactly one of the request
sequences `IsRotationTrace` allows, and `Run` ties every part together.

Some of what the program does may be unexpected:

- No probe loop confirms that a new key works before the old one is deleted.
  The delete follows the create at once.
- A failed rotation does not stay with its own profile. `main` unwraps every
  task result, so one `Err` (or a panic in a task, such as a failed delete)
  aborts the run. Nothing is then written, even though the other profiles'
  old keys have already been deleted by their own tasks. `Run` states this:
  the IAM log holds every task's requests, and `written` is `None`.
- A dry run does not leave the registry unchanged. Every requested profile
  gets the empty default key. The merged registry is then thrown away
  without being written.
- The whole registry is written back, not only the rotated profiles. Profiles
  that were not rotated are written with the values read at the start.
- The credential keys are `aws_access_key_id` and `aws_secret_access_key`.

## Model

| member | source | states |
|---|---|---|
| `AwsConfig.NewConfig` | src/aws_config.rs:26-34 | the access key id and secret are stored exactly as given |
| `AwsConfig.Words` | src/aws_config.rs:88 | `split_whitespace` yields only non-empty words that contain no Unicode whitespace |
| `AwsConfig.ConventionalHeader` | src/aws_config.rs:82-89 | the header `profile<ws><name>` splits into `["profile", name]`, so the section names exactly `name` |
| `AwsConfig.ProfileName` | src/aws_config.rs:77-91 | a config section is skipped exactly when it has a `source_profile` key, has no name, or its name does not start with `profile`; otherwise the profile is the second word, which is non-empty and has no whitespace |
| `AwsConfig.ParseConfigFiles` | src/aws_config.rs:70-118 | the loop's result is that of the section-by-section fold, which stops at the first error, so a header without a second word after that error is never split |
| `AwsConfig.ParseResult` | src/aws_config.rs:77-116 | a successful build has split every profile header; the build is the fold up to the first header with no second word |
| `AwsConfig.SplittablePrefix` | src/aws_config.rs:82-89 | counts the leading sections whose header, if it must be split, has a second word; the next section's header has none |
| `AwsConfig.OneWordHeader` | src/aws_config.rs:88 | a header without whitespace splits into itself alone |
| `AwsConfig.ErrorBeforeBadHeader` | src/aws_config.rs:82-105 | `[profile a]` with an empty credentials section, then `[profilefoo]`, gives the missing-access-key error for `a` without reaching the header that would panic |
| `AwsConfig.ParseErrSticks` | src/aws_config.rs:99-114 | once a section has failed, the sections after it do not change the outcome (the early `return Err`) |
| `AwsConfig.ParseOkExact` | src/aws_config.rs:93-117 | on `Ok`, the keys are exactly the listed profiles that have a credentials section; a listed profile without one is left out, not an error; each entry is that section's two key values |
| `AwsConfig.ParseOkComplete` | src/aws_config.rs:99-114 | on `Ok`, no listed profile has a credentials section missing a key |
| `AwsConfig.ParseErrFirst` | src/aws_config.rs:99-114 | on `Err`, the error comes from the first listed profile whose credentials section lacks a key; it names that profile, and a missing access key is reported before a missing secret |
| `AwsConfig.ParseFailsIff` | src/aws_config.rs:93-117 | over the first `n` sections, the build fails if and only if some listed profile has a credentials section missing a key |
| `Ini.FindSection` | src/aws_config.rs:93 | the lookup finds nothing exactly when no section has the name, and otherwise finds the properties of the first section with that name |
| `Ini.SetKeyLookup` | src/aws_config.rs:167-169 | after setting a key, the named section holds the new value beside its other keys (created if absent), and every other section is unchanged |
| `AwsConfig.WithKeys` | src/aws_config.rs:167-169 | a rewritten section has both credential keys set to the new values; every other key keeps its value |
| `AwsConfig.SetCredentialsLookup` | src/aws_config.rs:166-170 | one loop step rewrites only the two keys of the one profile's section |
| `AwsConfig.WriteCredentials` | src/aws_config.rs:151-178 | if the file fails to load, it returns `Err` and nothing is written; otherwise the written document gives each profile in `configs` its two new keys (creating the section if needed) and leaves every other section and key as loaded; a write failure is reported as `Err` |
| `AwsConfig.MergesCompose` | src/aws_config_test.rs:48-80 | two writes in a row act as one write of both updates, with the later one winning |
| `AwsConfig.SecondWriteKeepsFirst` | src/aws_config_test.rs:48-80 | writing `test` and then `test2` to an empty file leaves both sections with their own keys |
| `AwsConfig.GetConfigPath` | src/aws_config.rs:120-148 | no home directory gives `Err` even when the variable is set; a non-empty variable gives its value; an unset or empty variable gives `<home>/.aws/credentials` or `<home>/.aws/config` |
| `AwsConfig.EmptyEnvIsUnset` | src/aws_config.rs:138-147 | an empty variable gives the same result as an unset one |
| `AwsConfig.OtherVariableIgnored` | src/aws_config.rs:128-137 | each document's location depends only on its own variable |
| `AwsConfig.DefaultsDistinct` | src/aws_config.rs:121-137 | the two default locations are different files in the same `<home>/.aws` directory |
| `Rotation.IamService.CreateAccessKey` | src/main.rs:49-52 | a create request, authenticated as the given key, is logged with IAM's answer, which may be a failure |
| `Rotation.IamService.DeleteAccessKey` | src/main.rs:67-73 | a delete request, authenticated as the given key, is logged with the id it retires and IAM's answer |
| `Rotation.Rotate` | src/main.rs:26-81 | the requests appended to the log, and the result, form one of the traces `IsRotationTrace` allows: unknown profile is `Err` with no request; dry run makes no request and returns the empty key; otherwise a create authenticated as the old key, and on its failure `Err` and no delete; on success, a delete of the old key id authenticated as the new key, then the new key |
| `Rotation.RotatedIsRequested` | src/main.rs:76-80 | a returned key is for the profile that was asked for, and that profile is in the registry; a dry run makes no request |
| `Rotation.NoRequestWithoutRotation` | src/main.rs:31-66 | an unknown profile, or any profile in a dry run, makes no IAM request; the dry run returns the profile with empty key strings |
| `Rotation.DeleteFollowsCreate` | src/main.rs:49-73 | every delete comes after a successful create by the old key, is authenticated as the created key, and retires the old key id |
| `Rotation.RotatedKeyWasCreated` | src/main.rs:56-80 | a successful rotation returns the requested profile and exactly the key pair that IAM created, after a successful delete of the old key id |
| `Rotation.SpawnAll` | src/main.rs:109-112 | one rotation per requested profile, in order, each handed the same registry, so none sees another's result; the log is the concatenation of their traces |
| `Rotation.MergeResults` | src/main.rs:113-118 | merging returned keys never adds or removes a profile |
| `Rotation.MergeUntouched` | src/main.rs:113-118 | a profile no task returned keeps its original key |
| `Rotation.MergeLastWins` | src/main.rs:113-118 | a returned profile gets the key of the last task that returned it |
| `Rotation.JoinAll` | src/main.rs:113-118 | the loop panics exactly when some task did not return a key; otherwise the result is the merge, and the `get_mut` unwrap never fails |
| `Rotation.MergedKeysAreCreated` | src/main.rs:109-118 | after all tasks succeed, each requested profile holds the key IAM created in its last rotation (the empty key in a dry run), and every other profile keeps its key |
| `Rotation.Run` | src/main.rs:107-129 | a registry build error ends the run before any IAM request; otherwise every rotation's requests are logged; any failed task panics with nothing written; a dry run makes no request and writes nothing; otherwise the merged registry is written non-destructively and a write error is reported |

## Left out

- INI text parsing and serialisation (the `ini` crate) are not modelled. A document is its section sequence. The lookup finds the first section with a name, and `set` changes that section. Duplicate section names are assumed to behave like that.
- The `.unwrap()` on loading both documents in `parse_config_files` (src/aws_config.rs:74-75) is not modelled. A document that fails to load would panic. `ParseConfigFiles` takes the loaded documents.
- A header that starts with `profile` but has no second word (for example `profilefoo`) panics at the index in src/aws_config.rs:88 when the loop reaches it. The precondition `NoSplitPanic` leaves out exactly the documents where the loop reaches such a header; when an earlier profile has already failed, the document is modelled and gives that error.
- IAM, HTTP and credential-provider plumbing (`IamClient`, `HttpClient::new().unwrap()`, `StaticProvider`, `Region`) are not modelled. A client is the key it authenticates with. IAM is `IamService`, whose answers are arbitrary.
- `Rotation.IamService.CreateAccessKey`: does not constrain the created key (for example, that it differs from the old one), because IAM's behaviour is outside the program.
- Concurrency (`tokio::spawn`, `join_all`) is not modelled. The tasks share nothing, so they run one after another on the same registry value. The requests of different tasks are not interleaved in the log.
- The home directory and environment lookup are parameters of `GetConfigPath`. A variable whose value is not valid Unicode is read by `var` as an error. It counts as unset and is not in the map.
- `AwsConfig.GetConfigPath`: a path is its list of components. The variable's value is kept as one opaque component, and `PathBuf::from` parsing is not modelled.
- Argument parsing and wiring in `main` are not modelled: `src/app.rs`, `build.rs`, the `credfile` lookups, the import of `get_config_location`, and the `dry_run` argument name. `Run` receives the profile list, the dry-run flag and the documents directly.
- The `disable` flag is not modelled. It is never read.
- Logging (`debug!`, `info!`) and the `Display`/`Debug` impls of `AWSConfig` are not modelled.
- File I/O in `write_credentials` is not modelled. `loaded` and `writeFailure` are its inputs. Its output is the document handed to the writer. A failed write's effect on the file is not modelled.
- `Rotation.Run`: the panic reason is not modelled. All panics are `Exit.Panic`.
