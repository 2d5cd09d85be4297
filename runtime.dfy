/**
 * What every handler shares: the configuration read once at startup (config.py)
 * and the way a handler coroutine ends, normally or with an exception that the
 * dispatcher logs and drops.
 */
module Runtime {
  /**
   * `terms` is the terms text as it appears in the prompt (already formatted with
   * the version), `version` is T_AND_C_VERSION, `ownerId` the BOT_OWNER_ID string.
   */
  datatype Config = Config(terms: string, version: string, ownerId: string)

  /** The exceptions a handler can end with. */
  datatype Failure =
    | MalformedPayload  // int() of the callback payload field raised ValueError
    | NoSuchTable       // accepted_users does not exist yet
    | MessageNotFound   // the message to delete is already gone
    | MemberNotFound    // get_chat_member failed
    | BadOwnerId        // int(BOT_OWNER_ID) raised ValueError

  datatype Outcome = Done | Raised(failure: Failure)
}
