# OCI image resource resolution, modelled in Dafny

A charm gets the coordinates of its container image (registry path, user name,
password) from an attached resource file, a small YAML document. `OCIImageResource`
resolves that resource. It asks the charm model's resource provider for the file's
path, checks that the file exists, reads it, refuses empty text, loads the YAML and
republishes `registrypath`, `username` and `password` under the keys a Kubernetes pod
spec uses: `imagePath`, `username` and `password`.

Two revisions are modelled:

- `src/oci_image.py` (module `OciImage`): `fetch` returns the image dictionary or
  raises `MissingResourceError` / `InvalidResourceError`. Each error's blocked status
  reads `"<status_message>: <resource name>"`.
- `oci_image.py` (module `OciImageEvents`): `check_resource` reports through the events
  `image_failed` (a status message) and `image_available` (the loaded data). The event
  classes save and rebuild themselves with `snapshot` / `restore`.

The provider, the filesystem and the YAML loader are inputs. A `World` (module `Host`)
holds one function for each of `model.resources.fetch`, `Path.exists`,
`Path.read_text` and `yaml.safe_load`. Module `Yaml` gives the values the loader can
return (scalars, sequences and mappings with scalar keys). It also gives the Python
lookups applied to them: `data[key]`, which raises `KeyError` or `TypeError`, and
`dict.get`. The current `fetch` is a function of the resource name and the world.
`check_resource` is a method of a class `ImageResource` that appends what it emits to
a recorded event sequence. It is proved against the function `CheckResourceOutcome`.
Module `Revisions` compares the two revisions.

What the code does, as modelled:

- `fetch` does not check that `registrypath` is a non-empty string. It republishes
  whatever value the key has: an empty string, `null`, a number or a nested
  mapping.
- The unit test for partial image info (tests/unit/test_oci_image.py:187) expects
  `{"imagePath": image}` with no credential keys. The code always adds `username` and
  `password`, defaulting to `''`. `OciImage.PartialImageInfo` proves the code's result.
  It also proves that this result differs from the one the test expects.
- The error-message tests call `assertTrue(message, str(error))`, which holds for any
  non-empty message. So they check nothing about the message. (`str(error)` is the bare
  resource name, because the constructor passes only the name to `ModelError`.) The
  status format is stated and proved by `OciImage.StatusMessages` and
  `OciImage.StatusRoundTrip`.

## Model

| member | source | states |
|---|---|---|
| `Yaml.Index` | src/oci_image.py:32-35 | `data[key]` gives the value when a mapping has the key. It raises `KeyError` for a mapping without the key and `TypeError` for any document that is not a mapping. |
| `Yaml.Get` | src/oci_image.py:38-39 | `dict.get(key, default)` gives the entry when the key is present and the default otherwise. |
| `Host.ResourceText` | src/oci_image.py:15-23 | There is readable text exactly when the provider returns a path, the path exists and the text read is non-empty. The text is that file's text. |
| `OciImage.StatusMessage` | src/oci_image.py:43-58 | The class message is `Resource error` for the base class, `Missing resource` and `Invalid resource` for the subclasses, each exactly for its own class. |
| `OciImage.Status` | src/oci_image.py:47-50 | The blocked status message is the class message, then `": "`, then the resource name. |
| `OciImage.ParseStatus` | src/oci_image.py:47-58 | A message that parses into an error is exactly that error's status message. |
| `OciImage.StatusRoundTrip` | src/oci_image.py:47-58 | Parsing an error's status message gives back the same error class and resource name. |
| `OciImage.StatusInjective` | src/oci_image.py:43-58 | Two errors have equal statuses if and only if they are the same error. |
| `OciImage.StatusMessages` | src/oci_image.py:53-58 | The statuses are exactly `"Missing resource: <name>"` and `"Invalid resource: <name>"`. |
| `OciImage.LoadResource` | src/oci_image.py:15-27 | The result is `MissingResource(name)` if and only if the lookup fails, the path is missing or the text is empty. It is `InvalidResource(name)` if and only if the text is readable but is not valid YAML. Otherwise it is the loaded document, and no other error occurs. |
| `OciImage.ImageInfo` | src/oci_image.py:36-40 | The result has exactly the keys `imagePath`, `username` and `password`. `imagePath` is the registry path. Each credential is the mapping's value, or `''` when the key is absent. |
| `OciImage.TranslateAsWritten` | src/oci_image.py:32-40 | As written: a non-mapping document raises `TypeError`. A mapping without `registrypath` raises `InvalidResourceError`. Success happens exactly when the key is present, and the result is then the image dictionary built from the mapping. |
| `OciImage.Translate` | src/oci_image.py:32-40 | Corrected: success if and only if the document is a mapping with `registrypath`, and the result is the image dictionary. Every failure is `InvalidResource(name)`. |
| `OciImage.FetchAsWritten` | src/oci_image.py:14-40 | As written: an error while loading is raised unchanged. `TypeError` is raised if and only if the loaded document is not a mapping. A mapping without `registrypath` raises `InvalidResource(name)`. A mapping with it returns the image dictionary, which has exactly the three keys. A raised resolver error names the resource. |
| `OciImage.Fetch` | src/oci_image.py:14-40 | Only `MissingResource(name)` or `InvalidResource(name)` is raised. Missing holds if and only if there is no readable text. Success holds if and only if the loaded document has `registrypath`. On success there are exactly three keys, with `imagePath` equal to `registrypath` and the credentials defaulting to `''`. |
| `OciImage.FetchAsWrittenDiffersOnlyOnNonMappings` | src/oci_image.py:24-35 | The as-written `fetch` raises `TypeError` if and only if the loaded document is not a mapping. There the corrected one raises `InvalidResource`. On every other input the two return or raise the same thing. |
| `OciImage.BareImageNameEscapes` | src/oci_image.py:25-35 | A resource text `image:6.0` loads as a string. The as-written `fetch` then raises `TypeError`, while the corrected one raises `InvalidResource`. |
| `OciImage.FetchDependsOnlyOnEvaluatedSteps` | src/oci_image.py:15-27 | Two worlds that answer every step up to the first failing one alike give the same result. So no later step affects the outcome, and repeating the call with the same answers repeats the result. |
| `OciImage.CompleteImageInfo` | tests/unit/test_oci_image.py:128-158 | `{registrypath, username, password}` becomes exactly `{imagePath, username, password}` with the same values. |
| `OciImage.PartialImageInfo` | src/oci_image.py:36-40 | `{registrypath}` alone becomes `{imagePath, username: '', password: ''}`, which is not the one-key dictionary the test expects. |
| `OciImageEvents.ImageAvailableEvent.constructor` | oci_image.py:9-13 | The event requires a mapping holding all three keys. Its fields are the values of `registrypath`, `username` and `password`. |
| `OciImageEvents.ImageAvailableEvent.Snapshot` | oci_image.py:15-20 | The snapshot has exactly the keys `registry_path`, `username` and `password`, holding the three fields. |
| `OciImageEvents.ImageAvailableEvent.Restore` | oci_image.py:22-25 | The three fields are set from the snapshot's three keys. |
| `OciImageEvents.ImageFailedEvent.constructor` | oci_image.py:29-31 | The status is a blocked status with the given message. |
| `OciImageEvents.ImageFailedEvent.Snapshot` | oci_image.py:33-36 | The snapshot has exactly the key `message`, holding the status message. |
| `OciImageEvents.ImageFailedEvent.Restore` | oci_image.py:38-39 | The status is a blocked status with the snapshot's message. |
| `OciImageEvents.AvailableSnapshotRoundTrip` | oci_image.py:15-25 | Restoring from a snapshot reproduces `registry_path`, `username` and `password`. |
| `OciImageEvents.FailedSnapshotRoundTrip` | oci_image.py:33-39 | Restoring from a snapshot reproduces the status, and with it the status message. |
| `OciImageEvents.AvailableEmission` | oci_image.py:8-13 | Building the available event succeeds if and only if the data is a mapping with all three keys. A non-mapping raises `TypeError`. Otherwise the first missing key, in the order `registrypath`, `username`, `password`, raises `KeyError`. |
| `OciImageEvents.CheckResourceOutcome` | oci_image.py:57-77 | At most one event is emitted, and exactly one unless an exception escapes. A `ModelError` escapes with no event. A missing path or empty text emits one `image_failed "Missing resource: <name>"`. A YAML error emits one `image_failed "Invalid resource: <name>"`. Loaded data emits one `image_available` with that data, or raises building it. |
| `OciImageEvents.AvailableExcludesFailed` | oci_image.py:70-77 | Once the text is read, `image_failed` is emitted if and only if the YAML is invalid. Every emitted event is `image_available` if and only if it loaded. |
| `OciImageEvents.ImageResource.constructor` | oci_image.py:50-52 | The object records its resource name and has emitted nothing. |
| `OciImageEvents.ImageResource.EmitFailed` | oci_image.py:62 | Exactly one `image_failed` with the given message is appended. |
| `OciImageEvents.ImageResource.EmitAvailable` | oci_image.py:77 | One `image_available` is appended when the event can be built. Otherwise nothing is appended and the `KeyError` / `TypeError` is returned. |
| `OciImageEvents.ImageResource.CheckResource` | oci_image.py:57-77 | The events emitted are the old ones followed by exactly those of `CheckResourceOutcome`, and the exception returned is its exception. |
| `Revisions.FailureStatusesAgree` | oci_image.py:59-75 | Once a path is returned, every failure before translation emits one `image_failed`. Its message is the status of the error the current `fetch` raises. |
| `Revisions.SuccessesAgree` | oci_image.py:76-77 | For complete data, the one `image_available` carries exactly the `imagePath`, `username` and `password` that `fetch` returns. |
| `Revisions.RevisionsDiverge` | oci_image.py:9-77 | Where the revisions differ, and in each case nothing is emitted. The earlier one lets `ModelError` escape. It raises `TypeError` for a document that is not a mapping, where the corrected `fetch` raises `InvalidResource` and the as-written one also raises `TypeError`. It raises `KeyError` for a mapping missing `registrypath`, where `fetch` raises `InvalidResource`. It raises `KeyError` naming the first missing credential, `username` before `password`, where `fetch` succeeds and puts `''` for each absent credential. For `ModelError`, `fetch` raises `MissingResource`. |

## Findings

| source | as written | input that shows it | evidently intended | confidence | as-written member | corrected member |
|---|---|---|---|---|---|---|
| src/oci_image.py:32-35 | `resource_data['registrypath']` is guarded only by `except KeyError`. A YAML document that loads as something other than a mapping makes the subscript raise `TypeError`, and that escapes `fetch`. | Resource text `image:6.0` (loads as a string). A whitespace-only text also works: it passes the emptiness check and loads as `None`. | `InvalidResourceError(resource_name)`, like any other resource without a `registrypath` entry | medium, not executed | `OciImage.FetchAsWritten` (`OciImage.BareImageNameEscapes`) | `OciImage.Fetch` |

## Left out

- YAML parsing (`yaml.safe_load`) is a foreign library. It is an input function from text to a loaded document or a syntax error. Floats, timestamps and other tagged scalars, non-scalar mapping keys, and Python's `True == 1` key equality are not represented.
- Filesystem and provider I/O (`Path.exists`, `Path.read_text`, `model.resources.fetch`) are input functions. Errors that `Path.exists` could raise for reasons other than a missing file (such as a `PermissionError`) are not modelled, because `pathExists` is a plain boolean. Errors that `read_text` itself could raise (permissions, a directory, undecodable bytes) are not modelled either.
- The ops framework is not part of this model: the `Object` base class, the `framework.observe` wiring to `start` and `upgrade_charm` (oci_image.py:54-55), `EventSource` / `EventsBase`, event handles, storage of snapshots, and the unused `event` argument of `check_resource`.
- `OciImageEvents.ImageResource.EmitAvailable` relies on the framework building the event object when `emit` is called, before any observer runs (framework code, not part of this model). So a `KeyError` / `TypeError` from the constructor leaves `check_resource` with no event emitted.
- `BlockedStatus` is a record holding only its message. The `status_type` class attribute and exception chaining (`raise ... from e`) are not modelled.
- `OciImageEvents.ImageAvailableEvent.Restore` and `OciImageEvents.ImageFailedEvent.Restore` require their snapshot keys. A snapshot lacking one would raise `KeyError`, but the framework only passes back what `snapshot` produced.
- Idempotence of repeated calls has no separate lemma: `Fetch` is a function of the name and the world, and `OciImage.FetchDependsOnlyOnEvaluatedSteps` states the short-circuit form of it.
