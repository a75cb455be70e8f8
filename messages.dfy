/**
 * Localised messages. The localisation function `t(key, substitutions)` is
 * not interpreted: a call to it is represented by the key and the list of
 * substitutions it receives.
 */
module Messages {
  import opened Wrappers

  /** A call `t(key, args)`; `t(key)` has no arguments. */
  datatype Message = Message(key: string, args: seq<Substitution>)

  /** One entry of a substitution list. */
  datatype Substitution =
    | TextArg(text: string)
    | NumberArg(n: int)
    | UndefinedArg
    | TooltipArg(tip: Tooltip)

  /**
   * The account tooltip element: the text it wraps, the address labels it
   * lists one per line, and the optional "+N more" line after them.
   */
  datatype Tooltip = Tooltip(content: Message, lines: seq<string>, overflow: Option<Message>)
}
