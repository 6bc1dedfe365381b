/**
 * The collaborators resource resolution depends on, given as inputs: the charm
 * model's resource provider, the filesystem and the YAML loader. A `World` fixes
 * what each of them answers, so a resolution is a function of the resource name
 * and the world.
 */
module Host {
  import opened Yaml

  datatype Option<T> = None | Some(value: T)

  datatype Result<T, E> = Success(value: T) | Failure(error: E)

  /** What `model.resources.fetch(name)` does: return a path, or raise `ModelError`. */
  datatype Lookup = Found(path: string) | ModelError

  /** A unit status that blocks the charm, with its message. */
  datatype BlockedStatus = BlockedStatus(message: string)

  datatype World = World(
    fetchResource: string -> Lookup,  // model.resources.fetch
    pathExists: string -> bool,       // Path.exists
    readText: string -> string,       // Path.read_text
    safeLoad: string -> Load)         // yaml.safe_load

  /** The steps both revisions share before parsing: look the resource up, check that
    * the path exists, read the text and refuse an empty text. `Some(text)` exactly
    * when all three succeed, with the text that was read. */
  function ResourceText(name: string, w: World): (r: Option<string>)
    ensures r.Some? <==>
      w.fetchResource(name).Found? &&
      w.pathExists(w.fetchResource(name).path) &&
      w.readText(w.fetchResource(name).path) != ""
    ensures r.Some? ==> r.value != "" && r.value == w.readText(w.fetchResource(name).path)
  {
    match w.fetchResource(name)
    case ModelError => None
    case Found(path) =>
      if !w.pathExists(path) then None
      else
        var text := w.readText(path);
        if text == "" then None else Some(text)
  }
}
