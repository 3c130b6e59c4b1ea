/**
 * Choosing the client when the program starts: a live client when an API key
 * is set and the provider accepts it, the mock client otherwise. The
 * environment lookup and the provider's constructor are parameters.
 */
module ClientSelection {
  import opened Wrappers
  import opened Agent

  /** Whatever the provider's client constructor raises. */
  datatype InitError = InitError(detail: string)

  const LiveModelName: string := "gemini-2.5-flash"
  const MockModelName: string := "MOCK_MODEL"

  /** The chosen client and the model name sent with every request. */
  datatype Selection = Selection(client: Client, modelName: string)

  /**
   * The start-up choice: an absent or empty key (Python truthiness) selects
   * the mock; a key the constructor rejects also selects the mock; only an
   * accepted key gives a live client under the live model name.
   */
  function SelectClient(apiKey: Option<string>, connect: string -> Result<Provider, InitError>): (s: Selection)
    ensures s.client.MockClient? <==> (apiKey.None? || apiKey.value == [] || connect(apiKey.value).Failure?)
    ensures s.client.MockClient? <==> s.modelName == MockModelName
    ensures s.client.LiveClient? ==> s.modelName == LiveModelName
    ensures s.client.LiveClient? ==>
              apiKey.Some? && connect(apiKey.value).Success? && s.client.generate == connect(apiKey.value).value
  {
    match apiKey
    case None => Selection(MockClient, MockModelName)
    case Some(key) =>
      if key == [] then Selection(MockClient, MockModelName)
      else
        match connect(key)
        case Success(provider) => Selection(LiveClient(provider), LiveModelName)
        case Failure(_) => Selection(MockClient, MockModelName)
  }
}
