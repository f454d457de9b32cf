/** The user message translator of the error-handling service: a static table from
    service name to a friendly message, with a `"default"` entry for every other name. */
module Translator {

  const DefaultMessage: string :=
    "We're experiencing technical difficulties. Our team has been notified and is working to resolve the issue."

  /** `USER_ERROR_MESSAGES`, including its `"default"` key. */
  const UserErrorMessages: map<string, string> := map[
    "api-gateway" := "Our main service gateway is temporarily unavailable. Please try again later.",
    "bus-booking" := "We're experiencing issues with our bus booking system. Please try again in a few minutes.",
    "bus-service" := "We're having trouble accessing bus information. Please check back soon.",
    "user-service" := "We're unable to process user requests at the moment. Please try again later.",
    "agent-service" := "Our agent support system is temporarily unavailable. Please try again shortly.",
    "booking-service" := "We're experiencing issues with our booking system. Please try again in a few minutes.",
    "default" := DefaultMessage
  ]

  /** The services that have a message of their own. */
  const ListedServices: set<string> :=
    {"api-gateway", "bus-booking", "bus-service", "user-service", "agent-service", "booking-service"}

  /** `USER_ERROR_MESSAGES.get(name, USER_ERROR_MESSAGES["default"])`. */
  function UserMessage(name: string): string
  {
    if name in UserErrorMessages then UserErrorMessages[name] else UserErrorMessages["default"]
  }

  /** A listed service gets its own table entry; any other name, including names that
      are not registered at all, gets the default message. */
  lemma UserMessageLookup(name: string)
    ensures name in ListedServices ==> UserMessage(name) == UserErrorMessages[name]
    ensures name !in ListedServices ==> UserMessage(name) == DefaultMessage
    ensures UserMessage(name) in UserErrorMessages.Values
  {
  }

  /** The messages of the listed services are pairwise different and differ from the
      default, so the message identifies the failing service exactly when it is listed. */
  lemma UserMessageIsDefaultIffUnlisted(name: string)
    ensures UserMessage(name) == DefaultMessage <==> name !in ListedServices
  {
    if name in ListedServices {
      assert UserErrorMessages[name] != DefaultMessage by {
        assert |DefaultMessage| == 106;
      }
    }
  }

  lemma UserMessageInjectiveOnListed(a: string, b: string)
    requires a in ListedServices && b in ListedServices
    ensures UserMessage(a) == UserMessage(b) ==> a == b
  {
  }
}
