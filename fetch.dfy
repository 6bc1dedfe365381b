/**
 * The current revision of the resolver (`OCIImageResource.fetch` and its error
 * classes): look the resource up, check the file, read it, refuse empty text,
 * parse it as YAML and translate the mapping into the keys a Kubernetes pod spec
 * uses for an image, or raise `MissingResourceError` / `InvalidResourceError`.
 */
module OciImage {
  import opened Yaml
  import opened Host

  /** The resolver's exception classes, each constructed from the resource name:
    * the base class `OCIImageResourceError` and its two subclasses. */
  datatype ResourceError =
    | ResourceFailure(name: string)  // OCIImageResourceError
    | MissingResource(name: string)  // MissingResourceError
    | InvalidResource(name: string)  // InvalidResourceError

  /** The class attribute `status_message` of the error's class. */
  function StatusMessage(e: ResourceError): (m: string)
    ensures e.ResourceFailure? <==> m == "Resource error"
    ensures e.MissingResource? <==> m == "Missing resource"
    ensures e.InvalidResource? <==> m == "Invalid resource"
  {
    match e
    case ResourceFailure(_) => "Resource error"
    case MissingResource(_) => "Missing resource"
    case InvalidResource(_) => "Invalid resource"
  }

  /** The blocked status every error builds in its constructor: the class's
    * status message, then ": ", then the resource name. */
  function Status(e: ResourceError): (s: BlockedStatus)
    ensures |s.message| == |StatusMessage(e)| + 2 + |e.name|
    ensures s.message[..|StatusMessage(e)|] == StatusMessage(e)
    ensures s.message[|StatusMessage(e)|..|StatusMessage(e)| + 2] == ": "
    ensures s.message[|StatusMessage(e)| + 2..] == e.name
  {
    BlockedStatus(StatusMessage(e) + ": " + e.name)
  }

  function StripPrefix(s: string, prefix: string): (r: Option<string>)
    ensures r.Some? <==> prefix <= s
    ensures r.Some? ==> s == prefix + r.value
  {
    if prefix <= s then Some(s[|prefix|..]) else None
  }

  /** Reads a status message back into the error that produced it, if any did. */
  function ParseStatus(message: string): (r: Option<ResourceError>)
    ensures r.Some? ==> message == StatusMessage(r.value) + ": " + r.value.name
  {
    match StripPrefix(message, "Missing resource: ")
    case Some(name) => Some(MissingResource(name))
    case None =>
      match StripPrefix(message, "Invalid resource: ")
      case Some(name) => Some(InvalidResource(name))
      case None =>
        match StripPrefix(message, "Resource error: ")
        case Some(name) => Some(ResourceFailure(name))
        case None => None
  }

  /** The status message of an error determines the error: its class and its resource name. */
  lemma StatusRoundTrip(e: ResourceError)
    ensures ParseStatus(Status(e).message) == Some(e)
  {
    var m := Status(e).message;
    assert m == StatusMessage(e) + ": " + e.name;
    match e
    case MissingResource(name) =>
      assert m == "Missing resource: " + name;
      assert "Missing resource: " <= m;
    case InvalidResource(name) =>
      assert m == "Invalid resource: " + name;
      assert m[0] == 'I';
      assert "Invalid resource: " <= m;
    case ResourceFailure(name) =>
      assert m == "Resource error: " + name;
      assert m[0] == 'R';
      assert "Resource error: " <= m;
  }

  /** Two errors have the same status exactly when they are the same error. */
  lemma StatusInjective(e1: ResourceError, e2: ResourceError)
    ensures Status(e1) == Status(e2) <==> e1 == e2
  {
  }

  /** The two messages `fetch` can raise, written out. */
  lemma StatusMessages(name: string)
    ensures Status(MissingResource(name)).message == "Missing resource: " + name
    ensures Status(InvalidResource(name)).message == "Invalid resource: " + name
  {
  }

  /** `fetch` up to and including `yaml.safe_load`: the loaded document, or the error
    * raised by the first step that fails. A provider `ModelError`, a path that does
    * not exist and an empty text are all a missing resource; a YAML syntax error is
    * an invalid one. */
  function LoadResource(name: string, w: World): (r: Result<Node, ResourceError>)
    ensures r.Failure? ==> r.error == MissingResource(name) || r.error == InvalidResource(name)
    ensures r == Failure(MissingResource(name)) <==> ResourceText(name, w).None?
    ensures r == Failure(InvalidResource(name)) <==>
      ResourceText(name, w).Some? && w.safeLoad(ResourceText(name, w).value).YamlError?
    ensures r.Success? ==>
      ResourceText(name, w).Some? && w.safeLoad(ResourceText(name, w).value) == Loaded(r.value)
  {
    match w.fetchResource(name)
    case ModelError => Failure(MissingResource(name))
    case Found(path) =>
      if !w.pathExists(path) then Failure(MissingResource(name))
      else
        var text := w.readText(path);
        if text == "" then Failure(MissingResource(name))
        else
          match w.safeLoad(text)
          case YamlError => Failure(InvalidResource(name))
          case Loaded(doc) => Success(doc)
  }

  /** A loaded document that `fetch` can translate: a mapping with a `registrypath` key. */
  predicate HasRegistryPath(doc: Node) {
    doc.MappingNode? && Str("registrypath") in doc.entries
  }

  const ImageInfoKeys: set<string> := {"imagePath", "username", "password"}

  /** The dictionary `fetch` returns: the image path, and the credentials when the
    * resource gives them, the empty string when it does not. */
  function ImageInfo(registryPath: Node, entries: map<Scalar, Node>): (info: map<string, Node>)
    ensures info.Keys == ImageInfoKeys
    ensures info["imagePath"] == registryPath
    ensures Str("username") in entries ==> info["username"] == entries[Str("username")]
    ensures Str("username") !in entries ==> info["username"] == EmptyString
    ensures Str("password") in entries ==> info["password"] == entries[Str("password")]
    ensures Str("password") !in entries ==> info["password"] == EmptyString
  {
    map[
      "imagePath" := registryPath,
      "username" := Get(entries, "username", EmptyString),
      "password" := Get(entries, "password", EmptyString)]
  }

  /** The exceptions that leave `fetch` as written: its own error classes, or the
    * `TypeError` that subscripting a document which is not a mapping raises. */
  datatype Raise = RaiseResourceError(error: ResourceError) | RaiseTypeError

  /** The translation step as written: only a `KeyError` is turned into
    * `InvalidResourceError`, so a document that is not a mapping lets a `TypeError` out. */
  function TranslateAsWritten(name: string, doc: Node): (r: Result<map<string, Node>, Raise>)
    ensures r == Failure(RaiseTypeError) <==> !doc.MappingNode?
    ensures r == Failure(RaiseResourceError(InvalidResource(name))) <==>
      doc.MappingNode? && !HasRegistryPath(doc)
    ensures r.Success? <==> HasRegistryPath(doc)
    ensures r.Success? ==> r.value == ImageInfo(doc.entries[Str("registrypath")], doc.entries)
  {
    match Index(doc, "registrypath")
    case Value(registryPath) => Success(ImageInfo(registryPath, doc.entries))
    case KeyError(_) => Failure(RaiseResourceError(InvalidResource(name)))
    case TypeError => Failure(RaiseTypeError)
  }

  /** The translation step as intended: a document without a `registrypath` entry,
    * whether a mapping that lacks the key or not a mapping at all, is an invalid resource. */
  function Translate(name: string, doc: Node): (r: Result<map<string, Node>, ResourceError>)
    ensures r.Success? <==> HasRegistryPath(doc)
    ensures r.Failure? ==> r.error == InvalidResource(name)
    ensures r.Success? ==> r.value == ImageInfo(doc.entries[Str("registrypath")], doc.entries)
  {
    match Index(doc, "registrypath")
    case Value(registryPath) => Success(ImageInfo(registryPath, doc.entries))
    case _ => Failure(InvalidResource(name))
  }

  /** `fetch` as written. */
  function FetchAsWritten(name: string, w: World): (r: Result<map<string, Node>, Raise>)
    ensures r.Success? ==> r.value.Keys == ImageInfoKeys
    ensures r.Failure? && r.error.RaiseResourceError? ==> r.error.error.name == name
    ensures LoadResource(name, w).Failure? ==>
      r == Failure(RaiseResourceError(LoadResource(name, w).error))
    ensures r == Failure(RaiseTypeError) <==>
      LoadResource(name, w).Success? && !LoadResource(name, w).value.MappingNode?
    ensures (LoadResource(name, w).Success? && LoadResource(name, w).value.MappingNode? &&
             !HasRegistryPath(LoadResource(name, w).value)) ==>
      r == Failure(RaiseResourceError(InvalidResource(name)))
    ensures (LoadResource(name, w).Success? && HasRegistryPath(LoadResource(name, w).value)) ==>
      var entries := LoadResource(name, w).value.entries;
      r == Success(ImageInfo(entries[Str("registrypath")], entries))
  {
    match LoadResource(name, w)
    case Failure(e) => Failure(RaiseResourceError(e))
    case Success(doc) => TranslateAsWritten(name, doc)
  }

  /** `fetch` with the translation step corrected: it returns the image dictionary
    * or raises one of the resolver's own errors, never anything else. */
  function Fetch(name: string, w: World): (r: Result<map<string, Node>, ResourceError>)
    ensures r.Failure? ==> r.error == MissingResource(name) || r.error == InvalidResource(name)
    ensures r == Failure(MissingResource(name)) <==> ResourceText(name, w).None?
    ensures r.Success? <==> LoadResource(name, w).Success? && HasRegistryPath(LoadResource(name, w).value)
    ensures r.Success? ==> r.value.Keys == ImageInfoKeys
    ensures r.Success? ==>
      var entries := LoadResource(name, w).value.entries;
      r.value["imagePath"] == entries[Str("registrypath")] &&
      r.value["username"] == Get(entries, "username", EmptyString) &&
      r.value["password"] == Get(entries, "password", EmptyString)
  {
    match LoadResource(name, w)
    case Failure(e) => Failure(e)
    case Success(doc) => Translate(name, doc)
  }

  /** The as-written `fetch` and the corrected one differ exactly on a loaded document
    * that is not a mapping; everywhere else they return and raise the same. */
  lemma FetchAsWrittenDiffersOnlyOnNonMappings(name: string, w: World)
    ensures FetchAsWritten(name, w) == Failure(RaiseTypeError) <==>
      LoadResource(name, w).Success? && !LoadResource(name, w).value.MappingNode?
    ensures FetchAsWritten(name, w) == Failure(RaiseTypeError) ==>
      Fetch(name, w) == Failure(InvalidResource(name))
    ensures FetchAsWritten(name, w) != Failure(RaiseTypeError) ==>
      match Fetch(name, w)
      case Success(info) => FetchAsWritten(name, w) == Success(info)
      case Failure(e) => FetchAsWritten(name, w) == Failure(RaiseResourceError(e))
  {
  }

  /** A resource whose text is a bare image name such as `image:6.0` loads as a string,
    * and the as-written `fetch` then raises a `TypeError` instead of `InvalidResourceError`. */
  lemma BareImageNameEscapes()
    ensures
      var w := World(
        n => Found("/a/b/c/d/e/f"), p => true, p => "image:6.0",
        t => Loaded(ScalarNode(Str("image:6.0"))));
      FetchAsWritten("test-image", w) == Failure(RaiseTypeError) &&
      Fetch("test-image", w) == Failure(InvalidResource("test-image"))
  {
  }

  /** Two worlds that answer every step `fetch` evaluates in the same way. Once a step
    * fails, what the later steps would have answered is not compared. */
  predicate AgreeOnEvaluatedSteps(name: string, w: World, w': World) {
    w.fetchResource(name) == w'.fetchResource(name) &&
    (w.fetchResource(name).Found? ==>
      var path := w.fetchResource(name).path;
      w.pathExists(path) == w'.pathExists(path) &&
      (w.pathExists(path) ==>
        w.readText(path) == w'.readText(path) &&
        (w.readText(path) != "" ==> w.safeLoad(w.readText(path)) == w'.safeLoad(w.readText(path)))))
  }

  /** `fetch` short-circuits: no step after the first failing one influences the result,
    * and with unchanged answers a second call returns the same as the first. */
  lemma FetchDependsOnlyOnEvaluatedSteps(name: string, w: World, w': World)
    requires AgreeOnEvaluatedSteps(name, w, w')
    ensures Fetch(name, w) == Fetch(name, w')
  {
  }

  /** A resource giving all three of `registrypath`, `username` and `password` is
    * republished under the keys `imagePath`, `username` and `password`. */
  lemma CompleteImageInfo(name: string, w: World, image: string, user: string, pwd: string)
    requires ResourceText(name, w).Some?
    requires w.safeLoad(ResourceText(name, w).value) == Loaded(MappingNode(map[
      Str("registrypath") := ScalarNode(Str(image)),
      Str("username") := ScalarNode(Str(user)),
      Str("password") := ScalarNode(Str(pwd))]))
    ensures Fetch(name, w) == Success(map[
      "imagePath" := ScalarNode(Str(image)),
      "username" := ScalarNode(Str(user)),
      "password" := ScalarNode(Str(pwd))])
  {
  }

  /** A resource giving only `registrypath` gets empty-string credentials, so the
    * result is not the one-key dictionary `{"imagePath": image}`. */
  lemma PartialImageInfo(name: string, w: World, image: string)
    requires ResourceText(name, w).Some?
    requires w.safeLoad(ResourceText(name, w).value) ==
      Loaded(MappingNode(map[Str("registrypath") := ScalarNode(Str(image))]))
    ensures Fetch(name, w) == Success(map[
      "imagePath" := ScalarNode(Str(image)),
      "username" := EmptyString,
      "password" := EmptyString])
    ensures Fetch(name, w) != Success(map["imagePath" := ScalarNode(Str(image))])
  {
  }
}
