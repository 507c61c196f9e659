/**
 * The provider-independent part of core/ai_client.py: the message list
 * generate_text hands to chat(), and the AIClientFactory registry. Client
 * classes are tokens; chat() itself is a parameter.
 */
module AIClients {
  import Text
  import opened Wrappers
  import opened PyDicts

  /** One chat message: {"role": role, "content": content}. */
  datatype Message = Message(role: string, content: string)

  /** The arguments chat() receives. The temperature is passed along untouched, so its float value is kept as a real. */
  datatype ChatRequest = ChatRequest(messages: seq<Message>, temperature: Option<real>, maxTokens: Option<int>)

  /**
   * BaseAIClient.generate_text: the system prompt first when it is truthy
   * (present and non-empty), then the user prompt; the temperature is
   * forwarded unchanged and no max_tokens is given. The reply is chat's.
   */
  method GenerateText(chat: ChatRequest -> string, prompt: string, systemPrompt: Option<string>, temperature: Option<real>)
    returns (request: ChatRequest, reply: string)
    ensures var hasSystem := systemPrompt.Some? && systemPrompt.value != "";
      |request.messages| == (if hasSystem then 2 else 1)
      && (hasSystem ==> request.messages[0] == Message("system", systemPrompt.value))
    ensures request.messages[|request.messages| - 1] == Message("user", prompt)
    ensures forall i :: 0 <= i < |request.messages| - 1 ==> request.messages[i].role == "system"
    ensures request.temperature == temperature && request.maxTokens.None?
    ensures reply == chat(request)
  {
    var messages := [];
    if systemPrompt.Some? && systemPrompt.value != "" {
      messages := messages + [Message("system", systemPrompt.value)];
    }
    messages := messages + [Message("user", prompt)];
    request := ChatRequest(messages, temperature, None);
    reply := chat(request);
  }

  /**
   * A client class: the two built-in ones, or any other class, which may or
   * may not derive from BaseAIClient.
   */
  datatype ClientClass = OpenAIClient | ZhipuAIClient | OtherClass(name: string, derivesBase: bool)

  /** issubclass(client_class, BaseAIClient) */
  predicate IsAIClient(c: ClientClass)
  {
    !c.OtherClass? || c.derivesBase
  }

  /** The registry as the class body defines it. */
  const InitialClients: Dict<ClientClass> := [("openai", OpenAIClient), ("zhipu", ZhipuAIClient)]

  /** A name as the registry keeps it: already lower-case. */
  predicate IsLower(s: string)
  {
    Text.Lower(s) == s
  }

  /** AIClientFactory: the registered client classes and the default client's name. */
  class AIClientFactory {
    var clients: Dict<ClientClass>
    var defaultClient: string

    /**
     * The registry's invariant: distinct keys, every key lower-case, and
     * the default always one of them.
     */
    predicate Valid()
      reads this
    {
      DistinctKeys(clients)
      && (forall i :: 0 <= i < |clients| ==> IsLower(clients[i].0))
      && defaultClient in Keys(clients)
    }

    constructor ()
      ensures clients == InitialClients && defaultClient == "openai"
      ensures Valid()
    {
      clients := InitialClients;
      defaultClient := "openai";
      assert Keys(InitialClients) == ["openai", "zhipu"];
    }

    /** register_client: stores the class under the lower-cased name, or raises ValueError for a class that is not an AI client. */
    method RegisterClient(name: string, clientClass: ClientClass) returns (r: Result<()>)
      requires Valid()
      modifies this
      ensures Valid()
      ensures r.Ok? <==> IsAIClient(clientClass)
      ensures r.Raised? ==> r.error == ValueError && clients == old(clients)
      ensures r.Ok? ==> clients == Put(old(clients), Text.Lower(name), clientClass)
      ensures defaultClient == old(defaultClient)
    {
      if !IsAIClient(clientClass) {
        return Raised(ValueError);
      }
      var key := Text.Lower(name);
      Text.LowerIdempotent(name);
      PutDistinct(clients, key, clientClass);
      ghost var before := clients;
      clients := Put(clients, key, clientClass);
      forall i | 0 <= i < |clients|
        ensures IsLower(clients[i].0)
      {
        assert clients[i].0 == Keys(clients)[i];
        if i < |before| {
          assert Keys(before)[i] == before[i].0;
        }
      }
      r := Ok(());
    }

    /** set_default_client: the lower-cased name becomes the default when registered; otherwise ValueError and no change. */
    method SetDefaultClient(name: string) returns (r: Result<()>)
      requires Valid()
      modifies this
      ensures Valid()
      ensures r.Ok? <==> Text.Lower(name) in Keys(old(clients))
      ensures r.Raised? ==> r.error == ValueError
      ensures defaultClient == if r.Ok? then Text.Lower(name) else old(defaultClient)
      ensures clients == old(clients)
    {
      var key := Text.Lower(name);
      if key !in Keys(clients) {
        return Raised(ValueError);
      }
      defaultClient := key;
      r := Ok(());
    }

    /**
     * create_client: an instance of the class registered under the
     * lower-cased name, the default's when no (or an empty) name is given;
     * ValueError for a name nobody registered.
     */
    method CreateClient(clientType: Option<string>) returns (r: Result<ClientClass>)
      requires Valid()
      ensures var key := CreateKey(clientType, defaultClient);
        (r.Ok? <==> key in Keys(clients))
        && (r.Ok? ==> Lookup(clients, key) == Some(r.value))
        && (r.Raised? ==> r.error == ValueError)
      ensures clientType.None? ==> r.Ok?
    {
      var key := CreateKey(clientType, defaultClient);
      if clientType.None? {
        DefaultIsRegistered();
      }
      var found := Lookup(clients, key);
      if found.None? {
        return Raised(ValueError);
      }
      r := Ok(found.value);
    }

    /** The default name, lower-cased again as create_client does, is still a registered key. */
    lemma DefaultIsRegistered()
      requires Valid()
      ensures Text.Lower(defaultClient) == defaultClient && defaultClient in Keys(clients)
    {
      var i :| 0 <= i < |clients| && Keys(clients)[i] == defaultClient;
      assert IsLower(clients[i].0);
    }

    /** list_clients: the registered names in registration order. */
    method ListClients() returns (names: seq<string>)
      ensures names == Keys(clients)
      ensures forall n :: n in names <==> Lookup(clients, n).Some?
    {
      names := Keys(clients);
    }
  }

  /** The registry key create_client looks up: `(client_type or default).lower()`. */
  function CreateKey(clientType: Option<string>, defaultClient: string): string
  {
    Text.Lower(if clientType.Some? && clientType.value != "" then clientType.value else defaultClient)
  }

  /**
   * After registering a client class under a name, create_client with any
   * non-empty spelling of that name, in any letter case, looks up that class.
   */
  lemma RegisteredClientIsCreated(clients: Dict<ClientClass>, defaultClient: string, name: string, spelling: string, c: ClientClass)
    requires spelling != [] && Text.Lower(spelling) == Text.Lower(name)
    ensures Lookup(Put(clients, Text.Lower(name), c), CreateKey(Some(spelling), defaultClient)) == Some(c)
  {
    PutFinds(clients, Text.Lower(name), c);
  }

  /** An empty client name is falsy, so create_client falls back to the default exactly as with no name. */
  lemma EmptyNameCreatesDefault(defaultClient: string)
    ensures CreateKey(Some(""), defaultClient) == CreateKey(None, defaultClient) == Text.Lower(defaultClient)
  {
  }
}
