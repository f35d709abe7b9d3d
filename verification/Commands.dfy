/** The values both halves of the replicated store share: optional results and the
    operation a clerk submits, which is what a Raft log entry carries. */
module Commands {

  datatype Option<+T> = None | Some(value: T)

  datatype OpKind = Get | Put | Append

  /** `Nil` is the command of the sentinel entry every log starts with. */
  datatype Command =
    | Nil
    | Op(key: string, value: string, kind: OpKind, clientId: int, clientSeq: int)
}
