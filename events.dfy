/**
 * The earlier, event-based revision of the resolver. `OCIImageResource.check_resource`
 * runs the same guard chain as the current `fetch`, but reports through two events
 * instead of returning or raising: `image_failed` with a status message, or
 * `image_available` with the loaded resource data. The event classes save themselves
 * with `snapshot` and are rebuilt with `restore`.
 */
module OciImageEvents {
  import opened Yaml
  import opened Host

  /** Resource data the `OCIImageAvailableEvent` constructor can read: a mapping that
    * holds all three of `registrypath`, `username` and `password`. */
  predicate CompleteResourceData(data: Node) {
    data.MappingNode? &&
    Str("registrypath") in data.entries &&
    Str("username") in data.entries &&
    Str("password") in data.entries
  }

  /** `OCIImageAvailableEvent`: the image coordinates read from the resource data. */
  class ImageAvailableEvent {
    var registryPath: Node
    var username: Node
    var password: Node

    constructor (resourceData: Node)
      requires CompleteResourceData(resourceData)
      ensures registryPath == resourceData.entries[Str("registrypath")]
      ensures username == resourceData.entries[Str("username")]
      ensures password == resourceData.entries[Str("password")]
    {
      registryPath := resourceData.entries[Str("registrypath")];
      username := resourceData.entries[Str("username")];
      password := resourceData.entries[Str("password")];
    }

    /** The saved form of the event: its three fields under the keys `registry_path`,
      * `username` and `password`. */
    function Snapshot(): (s: map<string, Node>)
      reads this
      ensures s.Keys == {"registry_path", "username", "password"}
      ensures s["registry_path"] == registryPath
      ensures s["username"] == username
      ensures s["password"] == password
    {
      map["registry_path" := registryPath, "username" := username, "password" := password]
    }

    /** Sets the three fields from a saved form. */
    method Restore(snapshot: map<string, Node>)
      requires "registry_path" in snapshot && "username" in snapshot && "password" in snapshot
      modifies this
      ensures registryPath == snapshot["registry_path"]
      ensures username == snapshot["username"]
      ensures password == snapshot["password"]
    {
      registryPath := snapshot["registry_path"];
      username := snapshot["username"];
      password := snapshot["password"];
    }
  }

  /** `OCIImageFailedEvent`: a blocked status carrying the failure message. */
  class ImageFailedEvent {
    var status: BlockedStatus

    constructor (statusMessage: string)
      ensures status == BlockedStatus(statusMessage)
    {
      status := BlockedStatus(statusMessage);
    }

    /** The saved form of the event: the status message under the key `message`. */
    function Snapshot(): (s: map<string, string>)
      reads this
      ensures s.Keys == {"message"}
      ensures s["message"] == status.message
    {
      map["message" := status.message]
    }

    /** Sets the status from a saved form. */
    method Restore(snapshot: map<string, string>)
      requires "message" in snapshot
      modifies this
      ensures status == BlockedStatus(snapshot["message"])
    {
      status := BlockedStatus(snapshot["message"]);
    }
  }

  /** Restoring an available event from another's snapshot reproduces its image
    * coordinates, whether the target is a different event or the same one. */
  method AvailableSnapshotRoundTrip(source: ImageAvailableEvent, target: ImageAvailableEvent)
    modifies target
    ensures target.registryPath == old(source.registryPath)
    ensures target.username == old(source.username)
    ensures target.password == old(source.password)
  {
    target.Restore(source.Snapshot());
  }

  /** Restoring a failed event from another's snapshot reproduces its status. */
  method FailedSnapshotRoundTrip(source: ImageFailedEvent, target: ImageFailedEvent)
    modifies target
    ensures target.status == old(source.status)
  {
    target.Restore(source.Snapshot());
  }

  /** An emitted event as its observers see it: the fields of the event object. */
  datatype Emission =
    | ImageAvailable(registryPath: Node, username: Node, password: Node)
    | ImageFailed(status: BlockedStatus)

  /** An exception that leaves `check_resource`: the provider's `ModelError`, which this
    * revision does not catch, or the `KeyError` / `TypeError` raised while the
    * available event is built from the resource data. */
  datatype HookError = ModelErrorRaised | KeyErrorRaised(key: string) | TypeErrorRaised

  /** What one run of `check_resource` does: the events it emits, in order, and the
    * exception it ends with, if any. */
  datatype CheckOutcome = CheckOutcome(emitted: seq<Emission>, raised: Option<HookError>)

  /** Emitting `image_available` builds the event from the resource data first, reading
    * `registrypath`, `username` and `password` in that order; the first lookup that
    * fails raises and nothing is emitted. */
  function AvailableEmission(data: Node): (r: Result<Emission, HookError>)
    ensures r.Success? <==> CompleteResourceData(data)
    ensures r.Success? ==> r.value == ImageAvailable(
      data.entries[Str("registrypath")], data.entries[Str("username")], data.entries[Str("password")])
    ensures r == Failure(TypeErrorRaised) <==> !data.MappingNode?
    ensures r == Failure(KeyErrorRaised("registrypath")) <==>
      data.MappingNode? && Str("registrypath") !in data.entries
    ensures r == Failure(KeyErrorRaised("username")) <==>
      data.MappingNode? && Str("registrypath") in data.entries && Str("username") !in data.entries
    ensures r == Failure(KeyErrorRaised("password")) <==>
      data.MappingNode? && Str("registrypath") in data.entries && Str("username") in data.entries &&
      Str("password") !in data.entries
  {
    match Index(data, "registrypath")
    case TypeError => Failure(TypeErrorRaised)
    case KeyError(k) => Failure(KeyErrorRaised(k))
    case Value(registryPath) =>
      match Index(data, "username")
      case TypeError => Failure(TypeErrorRaised)
      case KeyError(k) => Failure(KeyErrorRaised(k))
      case Value(username) =>
        match Index(data, "password")
        case TypeError => Failure(TypeErrorRaised)
        case KeyError(k) => Failure(KeyErrorRaised(k))
        case Value(password) => Success(ImageAvailable(registryPath, username, password))
  }

  /** The outcome of `check_resource` for a resource name in a world. */
  function CheckResourceOutcome(name: string, w: World): (o: CheckOutcome)
    // at most one event, and exactly one unless an exception leaves the handler
    ensures |o.emitted| <= 1
    ensures o.raised.None? <==> |o.emitted| == 1
    ensures w.fetchResource(name).ModelError? ==> o == CheckOutcome([], Some(ModelErrorRaised))
    ensures w.fetchResource(name).Found? && ResourceText(name, w).None? ==>
      o == CheckOutcome([ImageFailed(BlockedStatus("Missing resource: " + name))], None)
    ensures ResourceText(name, w).Some? && w.safeLoad(ResourceText(name, w).value).YamlError? ==>
      o == CheckOutcome([ImageFailed(BlockedStatus("Invalid resource: " + name))], None)
    ensures ResourceText(name, w).Some? && w.safeLoad(ResourceText(name, w).value).Loaded? ==>
      var data := w.safeLoad(ResourceText(name, w).value).doc;
      (CompleteResourceData(data) ==> o == CheckOutcome([AvailableEmission(data).value], None)) &&
      (!CompleteResourceData(data) ==> o == CheckOutcome([], Some(AvailableEmission(data).error)))
  {
    match w.fetchResource(name)
    case ModelError => CheckOutcome([], Some(ModelErrorRaised))
    case Found(path) =>
      if !w.pathExists(path) then
        CheckOutcome([ImageFailed(BlockedStatus("Missing resource: " + name))], None)
      else
        var text := w.readText(path);
        if text == "" then
          CheckOutcome([ImageFailed(BlockedStatus("Missing resource: " + name))], None)
        else
          match w.safeLoad(text)
          case YamlError => CheckOutcome([ImageFailed(BlockedStatus("Invalid resource: " + name))], None)
          case Loaded(data) =>
            match AvailableEmission(data)
            case Success(event) => CheckOutcome([event], None)
            case Failure(error) => CheckOutcome([], Some(error))
  }

  /** `image_available` and `image_failed` exclude each other: a run that reaches the
    * parser emits `image_failed` exactly when the text is not valid YAML. */
  lemma AvailableExcludesFailed(name: string, w: World)
    requires ResourceText(name, w).Some?
    ensures w.safeLoad(ResourceText(name, w).value).YamlError? <==>
      exists e :: e in CheckResourceOutcome(name, w).emitted && e.ImageFailed?
    ensures w.safeLoad(ResourceText(name, w).value).Loaded? <==>
      forall e :: e in CheckResourceOutcome(name, w).emitted ==> e.ImageAvailable?
  {
    var o := CheckResourceOutcome(name, w);
    if w.safeLoad(ResourceText(name, w).value).YamlError? {
      assert o.emitted[0] in o.emitted;
    } else if o.emitted != [] {
      assert o.emitted[0].ImageAvailable?;
    }
  }

  /** `OCIImageResource`, the object `check_resource` belongs to: the resource it
    * resolves and, standing for its `image_available` / `image_failed` event sources,
    * the record of every event emitted so far. */
  class ImageResource {
    const resourceName: string
    var emitted: seq<Emission>

    constructor (resourceName: string)
      ensures this.resourceName == resourceName && emitted == []
    {
      this.resourceName := resourceName;
      emitted := [];
    }

    /** `self.on.image_failed.emit(status_message)`. */
    method EmitFailed(statusMessage: string)
      modifies this
      ensures emitted == old(emitted) + [ImageFailed(BlockedStatus(statusMessage))]
    {
      var event := new ImageFailedEvent(statusMessage);
      emitted := emitted + [ImageFailed(event.status)];
    }

    /** `self.on.image_available.emit(resource_data)`: builds the event, which raises
      * when the data lacks a key, and records it only when that succeeds. */
    method EmitAvailable(data: Node) returns (raised: Option<HookError>)
      modifies this
      ensures AvailableEmission(data).Success? ==>
        emitted == old(emitted) + [AvailableEmission(data).value] && raised == None
      ensures AvailableEmission(data).Failure? ==>
        emitted == old(emitted) && raised == Some(AvailableEmission(data).error)
    {
      if !CompleteResourceData(data) {
        return Some(AvailableEmission(data).error);
      }
      var event := new ImageAvailableEvent(data);
      emitted := emitted + [ImageAvailable(event.registryPath, event.username, event.password)];
      raised := None;
    }

    /** `check_resource`: runs the guard chain, emits at most one event and returns the
      * exception the handler ends with, if any. */
    method CheckResource(w: World) returns (raised: Option<HookError>)
      modifies this
      ensures emitted == old(emitted) + CheckResourceOutcome(resourceName, w).emitted
      ensures raised == CheckResourceOutcome(resourceName, w).raised
    {
      match w.fetchResource(resourceName)
      case ModelError =>
        return Some(ModelErrorRaised);
      case Found(path) =>
        if !w.pathExists(path) {
          EmitFailed("Missing resource: " + resourceName);
          return None;
        }
        var text := w.readText(path);
        if text == "" {
          EmitFailed("Missing resource: " + resourceName);
          return None;
        }
        match w.safeLoad(text)
        case YamlError =>
          EmitFailed("Invalid resource: " + resourceName);
          raised := None;
        case Loaded(data) =>
          raised := EmitAvailable(data);
    }
  }
}
