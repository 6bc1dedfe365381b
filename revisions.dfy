/**
 * The two revisions of the resolver side by side: where the event-based
 * `check_resource` and the current `fetch` report the same thing, and where they part.
 */
module Revisions {
  import opened Yaml
  import opened Host
  import opened OciImage
  import opened OciImageEvents

  /** When the resource cannot be read or parsed after the provider returned a path,
    * the earlier revision emits exactly one `image_failed` whose message is the status
    * of the error the current revision raises. */
  lemma FailureStatusesAgree(name: string, w: World)
    requires w.fetchResource(name).Found?
    requires LoadResource(name, w).Failure?
    ensures CheckResourceOutcome(name, w) ==
      CheckOutcome([ImageFailed(Status(LoadResource(name, w).error))], None)
  {
    StatusMessages(name);
  }

  /** When the resource gives all three keys, the earlier revision emits one
    * `image_available` carrying exactly the values the current revision returns. */
  lemma SuccessesAgree(name: string, w: World)
    requires LoadResource(name, w).Success?
    requires CompleteResourceData(LoadResource(name, w).value)
    ensures Fetch(name, w).Success?
    ensures
      var info := Fetch(name, w).value;
      CheckResourceOutcome(name, w) == CheckOutcome(
        [ImageAvailable(info["imagePath"], info["username"], info["password"])], None)
  {
  }

  /** Where the revisions part: the earlier one lets the provider's `ModelError` out,
    * it raises a `TypeError`, emitting nothing, for a document that is not a mapping,
    * and a `KeyError`, emitting nothing, for data that lacks `registrypath` or a
    * credential. There the current one raises `MissingResourceError`, raises
    * `InvalidResourceError` (the as-written one a `TypeError` for a non-mapping) or
    * substitutes empty credentials. */
  lemma RevisionsDiverge(name: string, w: World)
    ensures w.fetchResource(name).ModelError? ==>
      Fetch(name, w) == Failure(MissingResource(name)) &&
      CheckResourceOutcome(name, w) == CheckOutcome([], Some(ModelErrorRaised))
    ensures (LoadResource(name, w).Success? && LoadResource(name, w).value.MappingNode? &&
             !HasRegistryPath(LoadResource(name, w).value)) ==>
      Fetch(name, w) == Failure(InvalidResource(name)) &&
      CheckResourceOutcome(name, w) == CheckOutcome([], Some(KeyErrorRaised("registrypath")))
    ensures (LoadResource(name, w).Success? && !LoadResource(name, w).value.MappingNode?) ==>
      Fetch(name, w) == Failure(InvalidResource(name)) &&
      FetchAsWritten(name, w) == Failure(RaiseTypeError) &&
      CheckResourceOutcome(name, w) == CheckOutcome([], Some(TypeErrorRaised))
    ensures (LoadResource(name, w).Success? && HasRegistryPath(LoadResource(name, w).value) &&
             !CompleteResourceData(LoadResource(name, w).value)) ==>
      Fetch(name, w).Success? &&
      CheckResourceOutcome(name, w).emitted == [] &&
      CheckResourceOutcome(name, w).raised == Some(KeyErrorRaised(
        if Str("username") !in LoadResource(name, w).value.entries then "username" else "password")) &&
      (Str("username") !in LoadResource(name, w).value.entries ==> Fetch(name, w).value["username"] == EmptyString) &&
      (Str("password") !in LoadResource(name, w).value.entries ==> Fetch(name, w).value["password"] == EmptyString)
  {
  }
}
