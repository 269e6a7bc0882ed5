/**
 * The response-module `ChatBot` base class: its profanity gate in front of the
 * subclass's `respond_to`. The profanity library's verdict and the subclass's
 * reply are parameters.
 */
module ResponseBase {

  /** The reply sent instead of a response when the filter catches a message. */
  const ModeratorLine := "Hey Mods? Someone in chat is using those sentence enhancers again."

  /** The profanity-filter settings of the bot's configuration. */
  datatype FilterConfig = FilterConfig(profanityFilterEnabled: bool, authorAllowlist: seq<string>)

  /** The filter applies to this author and the message contains profanity. */
  predicate Filtered(config: FilterConfig, author: string, message: string, containsProfanity: string -> bool) {
    config.profanityFilterEnabled && author !in config.authorAllowlist && containsProfanity(message)
  }

  /** `get_response_text(author, chat_message, chat_history)`. */
  function GetResponseText<H>(config: FilterConfig, author: string, message: string, history: H,
                              containsProfanity: string -> bool,
                              respondTo: (string, string, H) -> string): (r: string)
    ensures Filtered(config, author, message, containsProfanity) ==> r == ModeratorLine
    ensures !Filtered(config, author, message, containsProfanity) ==> r == respondTo(author, message, history)
  {
    if config.profanityFilterEnabled && author !in config.authorAllowlist then
      if containsProfanity(message) then ModeratorLine else respondTo(author, message, history)
    else respondTo(author, message, history)
  }

  /**
   * Unless the responder itself happens to produce the moderator line, that
   * line is returned exactly when the filter is on, the author is not
   * allowlisted and the message contains profanity.
   */
  lemma ModeratorLineIffFiltered<H>(config: FilterConfig, author: string, message: string, history: H,
                                    containsProfanity: string -> bool,
                                    respondTo: (string, string, H) -> string)
    requires respondTo(author, message, history) != ModeratorLine
    ensures GetResponseText(config, author, message, history, containsProfanity, respondTo) == ModeratorLine
        <==> config.profanityFilterEnabled && author !in config.authorAllowlist && containsProfanity(message)
  {
  }

  /** An allowlisted author, or a disabled filter, always reaches the responder. */
  lemma UnfilteredReachesResponder<H>(config: FilterConfig, author: string, message: string, history: H,
                                      containsProfanity: string -> bool,
                                      respondTo: (string, string, H) -> string)
    requires !config.profanityFilterEnabled || author in config.authorAllowlist
    ensures GetResponseText(config, author, message, history, containsProfanity, respondTo)
         == respondTo(author, message, history)
  {
  }
}
