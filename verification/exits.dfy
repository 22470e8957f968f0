/** What a command hands back to the shell: its standard output and how it
    exits. Also the positional-argument check shared by `url` and `wait`. */
module Exits {
  import opened Optional

  const TimeoutErrorCode: nat := 2
  const InfoUrlInstanceNotFoundCode: nat := 3
  const IdEmptyErrorCode: nat := 4
  const AppNameEmptyErrorCode: nat := 5

  /** `Help` is an exit that prints the command's usage (text not modelled);
      `Failure` is an exit error carrying a message. */
  datatype Exit = Ok | Help(code: nat) | Failure(code: nat, message: string)

  datatype Run = Run(stdout: string, exit: Exit)

  /** The two positional arguments of `url` and `wait`: the application name
      is checked first, so a missing name wins over a missing id. */
  function CheckArgs(appName: string, instanceId: string): (r: Option<nat>)
    ensures r == Some(AppNameEmptyErrorCode) <==> appName == ""
    ensures r == Some(IdEmptyErrorCode) <==> appName != "" && instanceId == ""
    ensures r == None <==> appName != "" && instanceId != ""
  {
    if appName == "" then Some(AppNameEmptyErrorCode)
    else if instanceId == "" then Some(IdEmptyErrorCode)
    else None
  }

}
