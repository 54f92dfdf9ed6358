/** The text-extraction client: refuses to run without an API key, creates
    its SDK client at most once and reuses it, and turns whatever the SDK
    throws into one user-facing message. The SDK call itself is an outcome
    given as a parameter. */
module GeminiService {
  import opened Common

  const ExtractNotConfigured: string := "API Key is not configured."
  const ClientNotConfigured: string := "API Key not configured. Please set process.env.API_KEY."
  const InvalidKeyPhrase: string := "API key not valid"
  // The verifier reads the characters of a string literal only up to a
  // limited length, and `ClassificationDistinguishes` needs the first
  // character of the two long messages, so each is written as two literals.
  const InvalidKeyMessage: string := "Invalid API Key. " + "Please check your environment variable."
  const FailurePrefix: string := "Failed to get response from AI: "
  const UnknownAiError: string := "An unknown error occurred " + "while contacting the AI service."

  /** `s.includes(sub)`. */
  function Contains(s: string, sub: string): (b: bool)
    decreases |s|
  {
    if |sub| > |s| then false
    else if s[..|sub|] == sub then true
    else Contains(s[1..], sub)
  }

  /** `sub` occurs in `s` at position `i`. */
  predicate OccursAt(s: string, sub: string, i: int)
  {
    0 <= i <= |s| - |sub| && s[i..i + |sub|] == sub
  }

  /** `Contains` holds exactly when `sub` occurs at some position of `s`. */
  lemma {:induction false} ContainsSpec(s: string, sub: string)
    ensures Contains(s, sub) <==> exists i :: OccursAt(s, sub, i)
    decreases |s|
  {
    if |sub| <= |s| {
      if s[..|sub|] == sub {
        assert OccursAt(s, sub, 0);
      } else {
        ContainsSpec(s[1..], sub);
        if Contains(s, sub) {
          var i :| OccursAt(s[1..], sub, i);
          assert s[i + 1..i + 1 + |sub|] == s[1..][i..i + |sub|];
          assert OccursAt(s, sub, i + 1);
        }
        if exists i :: OccursAt(s, sub, i) {
          var i :| OccursAt(s, sub, i);
          assert i > 0;
          assert s[i..i + |sub|] == s[1..][i - 1..i - 1 + |sub|];
          assert OccursAt(s[1..], sub, i - 1);
        }
      }
    }
  }

  /** What the SDK call can throw: an `Error` with its message, or some
      other value. */
  datatype Thrown = ErrorObject(message: string) | OtherValue

  /** How `generateContent` ends: a response whose `text` may be absent, or a throw. */
  datatype SdkOutcome = Responded(text: Option<string>) | Threw(thrown: Thrown)

  /** The message `extractTextFromImage` throws for what the SDK threw. */
  function ClassifyError(t: Thrown): (msg: string)
    ensures t.ErrorObject? && Contains(t.message, InvalidKeyPhrase) ==> msg == InvalidKeyMessage
    ensures t.ErrorObject? && !Contains(t.message, InvalidKeyPhrase) ==> msg == FailurePrefix + t.message
    ensures t.OtherValue? ==> msg == UnknownAiError
  {
    match t
    case ErrorObject(m) => if Contains(m, InvalidKeyPhrase) then InvalidKeyMessage else FailurePrefix + m
    case OtherValue => UnknownAiError
  }

  /** The three kinds of failure are told apart by their message, and a
      wrapped SDK message can be read back from it. */
  lemma ClassificationDistinguishes(t: Thrown)
    ensures var msg := ClassifyError(t);
            && msg != ""
            && (|msg| >= |FailurePrefix| && msg[..|FailurePrefix|] == FailurePrefix <==>
                  t.ErrorObject? && !Contains(t.message, InvalidKeyPhrase))
            && (t.ErrorObject? && !Contains(t.message, InvalidKeyPhrase) ==> msg[|FailurePrefix|..] == t.message)
  {
    var msg := ClassifyError(t);
    if t.ErrorObject? && !Contains(t.message, InvalidKeyPhrase) {
      assert msg[..|FailurePrefix|] == FailurePrefix;
    } else {
      assert FailurePrefix[0] == 'F' && InvalidKeyMessage[0] == 'I' && UnknownAiError[0] == 'A';
      assert msg[0] != FailurePrefix[0];
    }
  }

  /** An SDK client, created with the key it was given. */
  datatype Client = Client(apiKey: string)

  class Service {
    /** `process.env.API_KEY`, read once when the module loads. */
    const apiKey: Option<string>
    /** The module-level `ai`, and how many clients have been constructed. */
    var ai: Option<Client>
    var clientsCreated: nat
    /** How many `generateContent` calls have been made. */
    var sdkCalls: nat

    /** At most one client is ever created, and it is the one held. */
    ghost predicate Valid()
      reads this
    {
      && clientsCreated <= 1
      && (ai.Some? <==> clientsCreated == 1)
      && (ai.Some? ==> Truthy(apiKey) && ai.value == Client(apiKey.value))
    }

    constructor (apiKey: Option<string>)
      ensures Valid() && this.apiKey == apiKey && ai.None? && clientsCreated == 0 && sdkCalls == 0
    {
      this.apiKey := apiKey;
      ai, clientsCreated, sdkCalls := None, 0, 0;
    }

    /** `getAiInstance`: throws without a key, otherwise creates the client
        on first use and returns the same client afterwards. */
    method GetAiInstance() returns (r: Result<Client>)
      requires Valid()
      modifies this`ai, this`clientsCreated
      ensures Valid()
      ensures !Truthy(apiKey) ==> r == Err(ClientNotConfigured) && ai == old(ai) && clientsCreated == old(clientsCreated)
      ensures Truthy(apiKey) ==> r == Ok(Client(apiKey.value)) && ai == Some(r.value) && clientsCreated == 1
      ensures old(ai).Some? ==> ai == old(ai) && clientsCreated == old(clientsCreated)
    {
      if !Truthy(apiKey) {
        return Err(ClientNotConfigured);
      }
      if ai.None? {
        ai := Some(Client(apiKey.value));
        clientsCreated := clientsCreated + 1;
      }
      return Ok(ai.value);
    }

    /** `extractTextFromImage` with the SDK call ending as `sdk`. Without a
        key it fails before a client is obtained or the SDK is called. */
    method ExtractTextFromImage(sdk: SdkOutcome) returns (r: Result<Option<string>>)
      requires Valid()
      modifies this`ai, this`clientsCreated, this`sdkCalls
      ensures Valid()
      ensures !Truthy(apiKey) ==>
                r == Err(ExtractNotConfigured) && ai == old(ai) &&
                clientsCreated == old(clientsCreated) && sdkCalls == old(sdkCalls)
      ensures Truthy(apiKey) ==> ai == Some(Client(apiKey.value)) && clientsCreated == 1 && sdkCalls == old(sdkCalls) + 1
      ensures Truthy(apiKey) && sdk.Responded? ==> r == Ok(sdk.text)
      ensures Truthy(apiKey) && sdk.Threw? ==> r == Err(ClassifyError(sdk.thrown))
    {
      if !Truthy(apiKey) {
        return Err(ExtractNotConfigured);
      }
      var client := GetAiInstance();
      sdkCalls := sdkCalls + 1;
      match sdk {
        case Responded(text) => r := Ok(text);
        case Threw(t) => r := Err(ClassifyError(t));
      }
    }
  }

  /** Two extractions on a fresh service: with a key both reach the SDK and
      share one client; without one neither does and no client exists. */
  method ExtractTwice(apiKey: Option<string>, first: SdkOutcome, second: SdkOutcome)
    returns (created: nat, calls: nat, r1: Result<Option<string>>, r2: Result<Option<string>>)
    ensures Truthy(apiKey) ==> created == 1 && calls == 2
    ensures !Truthy(apiKey) ==> created == 0 && calls == 0 && r1 == Err(ExtractNotConfigured) && r2 == r1
    ensures Truthy(apiKey) && first.Responded? ==> r1 == Ok(first.text)
  {
    var s := new Service(apiKey);
    r1 := s.ExtractTextFromImage(first);
    r2 := s.ExtractTextFromImage(second);
    created, calls := s.clientsCreated, s.sdkCalls;
  }
}
