/**
 * The messages carried on the XBin and Neuranet event topics: the file-mutation events the
 * lifecycle controller consumes, and the progress events it publishes and the ledger records.
 */
module Messages {
  import opened Optional

  /** The four file mutations; each is published under an XBin and a Neuranet type constant. */
  datatype FileEventKind = FileCreated | FileDeleted | FileRenamed | FileModified

  /** The `type` of a bus message. */
  datatype MessageType =
    | XbinEvent(kind: FileEventKind)        // XBIN_CONSTANTS.EVENTS.FILE_*
    | NeuranetEvent(kind: FileEventKind)    // NEURANETAPP_CONSTANTS.EVENTS.FILE_*
    | AidbFileProcessing                    // NEURANETAPP_CONSTANTS.EVENTS.AIDB_FILE_PROCESSING
    | AidbFileProcessed                     // NEURANETAPP_CONSTANTS.EVENTS.AIDB_FILE_PROCESSED
    | OtherType(name: string)

  /** FILEINDEXER_FILE_PROCESSED_EVENT_TYPES. */
  datatype Subtype = Ingested | Uningested | Renamed | Modified | ProgressPercentage | OtherSubtype(name: string)

  /** FILEINDEXER_FILE_PROCESSED_EVENT_PROGRESS_PERCENTAGE_NAMES. */
  datatype StepName = Initial | Pregen | OtherStep(name: string)

  /** A file-mutation message (`path` for create/delete/modify, `from`/`to` for rename). */
  datatype FileMessage = FileMessage(
    mtype: MessageType,
    path: Option<string>,
    from: Option<string>,
    to: Option<string>,
    isDirectory: bool,
    id: string,
    org: string,
    lang: Option<string>)

  /** A JavaScript number as the ledger's arithmetic sees it; NaN and the infinities are not told apart. */
  datatype Num = Undefined | Finite(value: real) | NonFinite

  /** `+` on JavaScript numbers: only two finite operands give a finite sum. */
  function AddNum(a: Num, b: Num): Num {
    if a.Finite? && b.Finite? then Finite(a.value + b.value) else NonFinite
  }

  /** A progress message published on the Neuranet topic. */
  datatype ProgressMessage = ProgressMessage(
    mtype: MessageType,
    subtype: Option<Subtype>,
    path: Option<string>,
    cmspath: Option<string>,
    id: string,
    org: string,
    result: Option<bool>,
    stepName: Option<StepName>,
    noOfSteps: Option<int>,
    percentage: Num)
}
