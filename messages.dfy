/** The fragments an action's result log is made of: one per command run,
    in the order the commands ran. Each stands for the text the source
    formats with `fmt.Sprintf`. */
module Messages {
  import opened Files

  /** The comparison an `If` command performs. */
  datatype Op = More | Less | Equals

  datatype Fragment =
    | Created(name: string, posParam: nat, posName: nat)
    | CreateFailed(name: string, posParam: nat, posName: nat)
    | Renamed(from: string, to: string, posParam: nat, posName: nat)
    | RenameFailed(from: string, to: string, posParam: nat, posName: nat)
    | Deleted(name: string, posParam: nat, posName: nat)
    | DeleteFailed(name: string, posParam: nat, posName: nat)
    | Stat(message: StatMessage)
    | Written(text: string, name: string, posParam: nat, posName: nat)
    | OpenFailed(name: string, text: string, posParam: nat, posName: nat)
      /** "Time L is [not] More/Less/Equal then R, go to DEST …" */
    | Compared(op: Op, holds: bool, left: Time, right: Time, dest: string, posParam: nat, posName: nat)
      /** "Algorithm successfully switched to DEST …" */
    | Switched(dest: string, posParam: nat, posName: nat)
      /** "Command not found at …" */
    | CommandNotFound(posParam: nat, posName: nat)

  /** An action's result log; the empty log is the empty string. */
  type Log = seq<Fragment>
}
