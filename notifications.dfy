/**
 * `LLMErrorManager`: the user-visible error and warning notifications raised by the
 * pipeline, modelled as an append-only log (the IDE balloons themselves are not modelled).
 */
module Notifications {

  datatype Notice = Error(message: string) | Warning(message: string)

  class LLMErrorManager {
    var notices: seq<Notice>

    constructor ()
      ensures notices == []
    {
      notices := [];
    }

    /** `errorProcess(message, project)`: report an error to the user. */
    method ErrorProcess(message: string)
      modifies this
      ensures notices == old(notices) + [Error(message)]
    {
      notices := notices + [Error(message)];
    }

    /** `warningProcess(message, project)`: report a warning to the user. */
    method WarningProcess(message: string)
      modifies this
      ensures notices == old(notices) + [Warning(message)]
    {
      notices := notices + [Warning(message)];
    }
  }
}
