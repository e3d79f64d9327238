/** Flag words and result codes shared by the whole engine. A flag word is the set of its bits. */
module Flags {
  datatype Option<+T> = None | Some(value: T)

  datatype BurnResult =
    | BurnOk
    | BurnErr
    | Retry
    | Cancel
    | Running
    | Dangerous
    | NotReady
    | NotRunning
    | NeedReload
    | NotSupported

  /** In order of importance, lowest bit first; bits 12 and 15 have no name in the enumeration. */
  datatype Flag =
    | CheckSize
    | NoGrace
    | Eject
    | Merge
    | Multi
    | Append
    | BurnProof
    | NoTmpFiles
    | Dummy
    | Overburn
    | BlankBeforeWrite
    | FastBlank
    | Bit12
    | Dao
    | Raw
    | Bit15

  datatype MediumBit =
    | MediumFile
    | MediumCd
    | MediumDvd
    | MediumBd
    | MediumDualLayer
    | MediumRam
    | MediumPlus
    | MediumSequential
    | MediumRestricted
    | MediumJump
    | MediumRandom
    | MediumSrm
    | MediumPow
    | MediumRewritable
    | MediumWritable
    | MediumRom
    | MediumBlank
    | MediumClosed
    | MediumAppendable
    | MediumUnformatted
    | MediumProtected
    | MediumHasData
    | MediumHasAudio

  datatype Io = Pipe | File

  datatype Position = Preprocessing | BeforeTarget | AfterTarget

  type BurnFlags = set<Flag>
  type Media = set<MediumBit>
  type IoFlags = set<Io>

  /** All sixteen bits. */
  const FLAG_ALL: BurnFlags := set flag: Flag | true

  const BURN_FLAG_MASK: BurnFlags := {Dummy, Multi, Dao, Raw, BurnProof, Overburn, NoGrace, Append, Merge}

  const IMAGE_FLAG_MASK: BurnFlags := {Append, Merge}

  const BLANK_FLAG_MASK: BurnFlags := {NoGrace, FastBlank}
}
