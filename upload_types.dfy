/**
 * The constant tables of the upload side: the MIME type a file is uploaded
 * as, chosen from its extension, and the error codes of Orthanc's REST API.
 */
module UploadTypes {
  import W = Wrappers

  // ---------------------------------------------------------------------
  // Upload types
  // ---------------------------------------------------------------------

  /** `ImageType`: how a file is uploaded. */
  datatype ImageType = Image | File | Pdf

  /** The MIME type (or MIME prefix, for images) each upload type stands for. */
  function Mime(t: ImageType): string
  {
    match t
    case Image => "image/"
    case File => "application/file"
    case Pdf => "application/pdf"
  }

  /** The upload type behind a MIME string, when there is one. */
  function FromMime(s: string): (r: W.Option<ImageType>)
    ensures r.Some? ==> Mime(r.value) == s
  {
    if s == "image/" then W.Some(Image)
    else if s == "application/file" then W.Some(File)
    else if s == "application/pdf" then W.Some(Pdf)
    else W.None
  }

  /** The three upload types have three distinct MIME strings, each found again from its string. */
  lemma MimeRoundTrip(t: ImageType)
    ensures FromMime(Mime(t)) == W.Some(t)
  {
    match t
    case Image =>
    case File =>
    case Pdf =>
  }

  /** `extension`: the extensions with a type of their own; every other one is a plain file. */
  const Extensions: map<string, ImageType> :=
    map["jpg" := Image, "jpeg" := Image, "png" := Image, "tiff" := Image, "tif" := Image, "pdf" := Pdf]

  /** The image extensions. */
  const ImageExtensions: set<string> := {"jpg", "jpeg", "png", "tiff", "tif"}

  /**
   * `get_type(ext)`: total, case-sensitive, and `File` for every extension
   * that is not exactly one of the keys.
   */
  function GetType(ext: string): (r: ImageType)
    ensures r == File <==> ext !in Extensions
    ensures r == Image <==> ext in ImageExtensions
    ensures r == Pdf <==> ext == "pdf"
  {
    if ext in Extensions then Extensions[ext] else File
  }

  /**
   * An enum member's value as Python builds it: a trailing comma after the
   * assignment makes the value a 1-tuple, `(v,)`, instead of `v`.
   */
  datatype EnumValue<T> = Plain(v: T) | Single(v: T)

  /** `ImageType`'s values as declared: the first two end in a comma, the last does not. */
  function DeclaredMime(t: ImageType): EnumValue<string>
  {
    if t == Pdf then Plain(Mime(t)) else Single(Mime(t))
  }

  /** `ImageType(v)`: the member whose declared value is `v`, if any (otherwise ValueError). */
  ghost function MimeLookupAsWritten(v: EnumValue<string>): W.Option<ImageType>
  {
    if exists t :: DeclaredMime(t) == v then W.Some(var t :| DeclaredMime(t) == v; t) else W.None
  }

  /**
   * As declared, `ImageType("image/")` and `ImageType("application/file")`
   * find nothing although `FromMime` maps both strings to their members;
   * only `"application/pdf"` works.
   */
  lemma MimeLookupFailsAsWritten()
    ensures MimeLookupAsWritten(Plain("image/")) == W.None
    ensures MimeLookupAsWritten(Plain("application/file")) == W.None
    ensures MimeLookupAsWritten(Plain("application/pdf")) == W.Some(Pdf)
    ensures FromMime("image/") == W.Some(Image) && FromMime("application/file") == W.Some(File)
  {
    forall t ensures DeclaredMime(t) != Plain("image/") && DeclaredMime(t) != Plain("application/file") {
      if t == Pdf {
        assert Mime(t) == "application/pdf";
        assert Mime(t)[12] != "image/"[0];
      }
    }
    assert DeclaredMime(Pdf) == Plain("application/pdf");
    forall t | DeclaredMime(t) == Plain("application/pdf") ensures t == Pdf {}
  }

  // ---------------------------------------------------------------------
  // Orthanc error codes
  // ---------------------------------------------------------------------

  /** `OrthancErrorCode`: one constructor per `ErrorCode_` member, in declaration order. */
  datatype ErrorCode =
    | InternalError
    | Success
    | Plugin
    | NotImplemented
    | ParameterOutOfRange
    | NotEnoughMemory
    | BadParameterType
    | BadSequenceOfCalls
    | InexistentItem
    | BadRequest
    | NetworkProtocol
    | SystemCommand
    | Database
    | UriSyntax
    | InexistentFile
    | CannotWriteFile
    | BadFileFormat
    | Timeout
    | UnknownResource
    | IncompatibleDatabaseVersion
    | FullStorage
    | CorruptedFile
    | InexistentTag
    | ReadOnly
    | IncompatibleImageFormat
    | IncompatibleImageSize
    | SharedLibrary
    | UnknownPluginService
    | UnknownDicomTag
    | BadJson
    | Unauthorized
    | BadFont
    | DatabasePlugin
    | StorageAreaPlugin
    | EmptyRequest
    | NotAcceptable
    | NullPointer
    | DatabaseUnavailable
    | CanceledJob
    | BadGeometry
    | SslInitialization
    | DiscontinuedAbi
    | BadRange
    | DatabaseCannotSerialize
    | Revision
    | MainDicomTagsMultiplyDefined
    | ForbiddenAccess
    | SQLiteNotOpened
    | SQLiteAlreadyOpened
    | SQLiteCannotOpen
    | SQLiteStatementAlreadyUsed
    | SQLiteExecute
    | SQLiteRollbackWithoutTransaction
    | SQLiteCommitWithoutTransaction
    | SQLiteRegisterFunction
    | SQLiteFlush
    | SQLiteCannotRun
    | SQLiteCannotStep
    | SQLiteBindOutOfRange
    | SQLitePrepareStatement
    | SQLiteTransactionAlreadyStarted
    | SQLiteTransactionCommit
    | SQLiteTransactionBegin
    | DirectoryOverFile
    | FileStorageCannotWrite
    | DirectoryExpected
    | HttpPortInUse
    | DicomPortInUse
    | BadHttpStatusInRest
    | RegularFileExpected
    | PathToExecutable
    | MakeDirectory
    | BadApplicationEntityTitle
    | NoCFindHandler
    | NoCMoveHandler
    | NoCStoreHandler
    | NoApplicationEntityFilter
    | NoSopClassOrInstance
    | NoPresentationContext
    | DicomFindUnavailable
    | DicomMoveUnavailable
    | CannotStoreInstance
    | CreateDicomNotString
    | CreateDicomOverrideTag
    | CreateDicomUseContent
    | CreateDicomNoPayload
    | CreateDicomUseDataUriScheme
    | CreateDicomBadParent
    | CreateDicomParentIsInstance
    | CreateDicomParentEncoding
    | UnknownModality
    | BadJobOrdering
    | JsonToLuaTable
    | CannotCreateLua
    | CannotExecuteLua
    | LuaAlreadyExecuted
    | LuaBadOutput
    | NotLuaPredicate
    | LuaReturnsNoString
    | StorageAreaAlreadyRegistered
    | DatabaseBackendAlreadyRegistered
    | DatabaseNotInitialized
    | SslDisabled
    | CannotOrderSlices
    | NoWorklistHandler
    | AlreadyExistingTag
    | NoStorageCommitmentHandler
    | NoCGetHandler
    | UnsupportedMediaType
    | StartPlugins

  /** The numeric code of each member. */
  function Code(e: ErrorCode): int
  {
    match e
    case InternalError => -1
    case Success => 0
    case Plugin => 1
    case NotImplemented => 2
    case ParameterOutOfRange => 3
    case NotEnoughMemory => 4
    case BadParameterType => 5
    case BadSequenceOfCalls => 6
    case InexistentItem => 7
    case BadRequest => 8
    case NetworkProtocol => 9
    case SystemCommand => 10
    case Database => 11
    case UriSyntax => 12
    case InexistentFile => 13
    case CannotWriteFile => 14
    case BadFileFormat => 15
    case Timeout => 16
    case UnknownResource => 17
    case IncompatibleDatabaseVersion => 18
    case FullStorage => 19
    case CorruptedFile => 20
    case InexistentTag => 21
    case ReadOnly => 22
    case IncompatibleImageFormat => 23
    case IncompatibleImageSize => 24
    case SharedLibrary => 25
    case UnknownPluginService => 26
    case UnknownDicomTag => 27
    case BadJson => 28
    case Unauthorized => 29
    case BadFont => 30
    case DatabasePlugin => 31
    case StorageAreaPlugin => 32
    case EmptyRequest => 33
    case NotAcceptable => 34
    case NullPointer => 35
    case DatabaseUnavailable => 36
    case CanceledJob => 37
    case BadGeometry => 38
    case SslInitialization => 39
    case DiscontinuedAbi => 40
    case BadRange => 41
    case DatabaseCannotSerialize => 42
    case Revision => 43
    case MainDicomTagsMultiplyDefined => 44
    case ForbiddenAccess => 45
    case SQLiteNotOpened => 1000
    case SQLiteAlreadyOpened => 1001
    case SQLiteCannotOpen => 1002
    case SQLiteStatementAlreadyUsed => 1003
    case SQLiteExecute => 1004
    case SQLiteRollbackWithoutTransaction => 1005
    case SQLiteCommitWithoutTransaction => 1006
    case SQLiteRegisterFunction => 1007
    case SQLiteFlush => 1008
    case SQLiteCannotRun => 1009
    case SQLiteCannotStep => 1010
    case SQLiteBindOutOfRange => 1011
    case SQLitePrepareStatement => 1012
    case SQLiteTransactionAlreadyStarted => 1013
    case SQLiteTransactionCommit => 1014
    case SQLiteTransactionBegin => 1015
    case DirectoryOverFile => 2000
    case FileStorageCannotWrite => 2001
    case DirectoryExpected => 2002
    case HttpPortInUse => 2003
    case DicomPortInUse => 2004
    case BadHttpStatusInRest => 2005
    case RegularFileExpected => 2006
    case PathToExecutable => 2007
    case MakeDirectory => 2008
    case BadApplicationEntityTitle => 2009
    case NoCFindHandler => 2010
    case NoCMoveHandler => 2011
    case NoCStoreHandler => 2012
    case NoApplicationEntityFilter => 2013
    case NoSopClassOrInstance => 2014
    case NoPresentationContext => 2015
    case DicomFindUnavailable => 2016
    case DicomMoveUnavailable => 2017
    case CannotStoreInstance => 2018
    case CreateDicomNotString => 2019
    case CreateDicomOverrideTag => 2020
    case CreateDicomUseContent => 2021
    case CreateDicomNoPayload => 2022
    case CreateDicomUseDataUriScheme => 2023
    case CreateDicomBadParent => 2024
    case CreateDicomParentIsInstance => 2025
    case CreateDicomParentEncoding => 2026
    case UnknownModality => 2027
    case BadJobOrdering => 2028
    case JsonToLuaTable => 2029
    case CannotCreateLua => 2030
    case CannotExecuteLua => 2031
    case LuaAlreadyExecuted => 2032
    case LuaBadOutput => 2033
    case NotLuaPredicate => 2034
    case LuaReturnsNoString => 2035
    case StorageAreaAlreadyRegistered => 2036
    case DatabaseBackendAlreadyRegistered => 2037
    case DatabaseNotInitialized => 2038
    case SslDisabled => 2039
    case CannotOrderSlices => 2040
    case NoWorklistHandler => 2041
    case AlreadyExistingTag => 2042
    case NoStorageCommitmentHandler => 2043
    case NoCGetHandler => 2044
    case UnsupportedMediaType => 3000
    case StartPlugins => 1000000
  }

  /** The member with a given numeric code, if any: searched within Orthanc's code ranges. */
  function FromCode(c: int): W.Option<ErrorCode>
  {
    if c == -1 then W.Some(InternalError)
    else if c < 1000 then
      match c
      case 0 => W.Some(Success)
      case 1 => W.Some(Plugin)
      case 2 => W.Some(NotImplemented)
      case 3 => W.Some(ParameterOutOfRange)
      case 4 => W.Some(NotEnoughMemory)
      case 5 => W.Some(BadParameterType)
      case 6 => W.Some(BadSequenceOfCalls)
      case 7 => W.Some(InexistentItem)
      case 8 => W.Some(BadRequest)
      case 9 => W.Some(NetworkProtocol)
      case 10 => W.Some(SystemCommand)
      case 11 => W.Some(Database)
      case 12 => W.Some(UriSyntax)
      case 13 => W.Some(InexistentFile)
      case 14 => W.Some(CannotWriteFile)
      case 15 => W.Some(BadFileFormat)
      case 16 => W.Some(Timeout)
      case 17 => W.Some(UnknownResource)
      case 18 => W.Some(IncompatibleDatabaseVersion)
      case 19 => W.Some(FullStorage)
      case 20 => W.Some(CorruptedFile)
      case 21 => W.Some(InexistentTag)
      case 22 => W.Some(ReadOnly)
      case 23 => W.Some(IncompatibleImageFormat)
      case 24 => W.Some(IncompatibleImageSize)
      case 25 => W.Some(SharedLibrary)
      case 26 => W.Some(UnknownPluginService)
      case 27 => W.Some(UnknownDicomTag)
      case 28 => W.Some(BadJson)
      case 29 => W.Some(Unauthorized)
      case 30 => W.Some(BadFont)
      case 31 => W.Some(DatabasePlugin)
      case 32 => W.Some(StorageAreaPlugin)
      case 33 => W.Some(EmptyRequest)
      case 34 => W.Some(NotAcceptable)
      case 35 => W.Some(NullPointer)
      case 36 => W.Some(DatabaseUnavailable)
      case 37 => W.Some(CanceledJob)
      case 38 => W.Some(BadGeometry)
      case 39 => W.Some(SslInitialization)
      case 40 => W.Some(DiscontinuedAbi)
      case 41 => W.Some(BadRange)
      case 42 => W.Some(DatabaseCannotSerialize)
      case 43 => W.Some(Revision)
      case 44 => W.Some(MainDicomTagsMultiplyDefined)
      case 45 => W.Some(ForbiddenAccess)
      case _ => W.None
    else if c < 2000 then
      match c
      case 1000 => W.Some(SQLiteNotOpened)
      case 1001 => W.Some(SQLiteAlreadyOpened)
      case 1002 => W.Some(SQLiteCannotOpen)
      case 1003 => W.Some(SQLiteStatementAlreadyUsed)
      case 1004 => W.Some(SQLiteExecute)
      case 1005 => W.Some(SQLiteRollbackWithoutTransaction)
      case 1006 => W.Some(SQLiteCommitWithoutTransaction)
      case 1007 => W.Some(SQLiteRegisterFunction)
      case 1008 => W.Some(SQLiteFlush)
      case 1009 => W.Some(SQLiteCannotRun)
      case 1010 => W.Some(SQLiteCannotStep)
      case 1011 => W.Some(SQLiteBindOutOfRange)
      case 1012 => W.Some(SQLitePrepareStatement)
      case 1013 => W.Some(SQLiteTransactionAlreadyStarted)
      case 1014 => W.Some(SQLiteTransactionCommit)
      case 1015 => W.Some(SQLiteTransactionBegin)
      case _ => W.None
    else if c < 3000 then
      match c
      case 2000 => W.Some(DirectoryOverFile)
      case 2001 => W.Some(FileStorageCannotWrite)
      case 2002 => W.Some(DirectoryExpected)
      case 2003 => W.Some(HttpPortInUse)
      case 2004 => W.Some(DicomPortInUse)
      case 2005 => W.Some(BadHttpStatusInRest)
      case 2006 => W.Some(RegularFileExpected)
      case 2007 => W.Some(PathToExecutable)
      case 2008 => W.Some(MakeDirectory)
      case 2009 => W.Some(BadApplicationEntityTitle)
      case 2010 => W.Some(NoCFindHandler)
      case 2011 => W.Some(NoCMoveHandler)
      case 2012 => W.Some(NoCStoreHandler)
      case 2013 => W.Some(NoApplicationEntityFilter)
      case 2014 => W.Some(NoSopClassOrInstance)
      case 2015 => W.Some(NoPresentationContext)
      case 2016 => W.Some(DicomFindUnavailable)
      case 2017 => W.Some(DicomMoveUnavailable)
      case 2018 => W.Some(CannotStoreInstance)
      case 2019 => W.Some(CreateDicomNotString)
      case 2020 => W.Some(CreateDicomOverrideTag)
      case 2021 => W.Some(CreateDicomUseContent)
      case 2022 => W.Some(CreateDicomNoPayload)
      case 2023 => W.Some(CreateDicomUseDataUriScheme)
      case 2024 => W.Some(CreateDicomBadParent)
      case 2025 => W.Some(CreateDicomParentIsInstance)
      case 2026 => W.Some(CreateDicomParentEncoding)
      case 2027 => W.Some(UnknownModality)
      case 2028 => W.Some(BadJobOrdering)
      case 2029 => W.Some(JsonToLuaTable)
      case 2030 => W.Some(CannotCreateLua)
      case 2031 => W.Some(CannotExecuteLua)
      case 2032 => W.Some(LuaAlreadyExecuted)
      case 2033 => W.Some(LuaBadOutput)
      case 2034 => W.Some(NotLuaPredicate)
      case 2035 => W.Some(LuaReturnsNoString)
      case 2036 => W.Some(StorageAreaAlreadyRegistered)
      case 2037 => W.Some(DatabaseBackendAlreadyRegistered)
      case 2038 => W.Some(DatabaseNotInitialized)
      case 2039 => W.Some(SslDisabled)
      case 2040 => W.Some(CannotOrderSlices)
      case 2041 => W.Some(NoWorklistHandler)
      case 2042 => W.Some(AlreadyExistingTag)
      case 2043 => W.Some(NoStorageCommitmentHandler)
      case 2044 => W.Some(NoCGetHandler)
      case _ => W.None
    else if c == 3000 then W.Some(UnsupportedMediaType)
    else if c == 1000000 then W.Some(StartPlugins)
    else W.None
  }

  /** Every member is found again from its code. */
  lemma CodeRoundTrip(e: ErrorCode)
    ensures FromCode(Code(e)) == W.Some(e)
  {
    match e
    case InternalError => InternalErrorRoundTrip();
    case Success => SuccessRoundTrip();
    case Plugin => PluginRoundTrip();
    case NotImplemented => NotImplementedRoundTrip();
    case ParameterOutOfRange => ParameterOutOfRangeRoundTrip();
    case NotEnoughMemory => NotEnoughMemoryRoundTrip();
    case BadParameterType => BadParameterTypeRoundTrip();
    case BadSequenceOfCalls => BadSequenceOfCallsRoundTrip();
    case InexistentItem => InexistentItemRoundTrip();
    case BadRequest => BadRequestRoundTrip();
    case NetworkProtocol => NetworkProtocolRoundTrip();
    case SystemCommand => SystemCommandRoundTrip();
    case Database => DatabaseRoundTrip();
    case UriSyntax => UriSyntaxRoundTrip();
    case InexistentFile => InexistentFileRoundTrip();
    case CannotWriteFile => CannotWriteFileRoundTrip();
    case BadFileFormat => BadFileFormatRoundTrip();
    case Timeout => TimeoutRoundTrip();
    case UnknownResource => UnknownResourceRoundTrip();
    case IncompatibleDatabaseVersion => IncompatibleDatabaseVersionRoundTrip();
    case FullStorage => FullStorageRoundTrip();
    case CorruptedFile => CorruptedFileRoundTrip();
    case InexistentTag => InexistentTagRoundTrip();
    case ReadOnly => ReadOnlyRoundTrip();
    case IncompatibleImageFormat => IncompatibleImageFormatRoundTrip();
    case IncompatibleImageSize => IncompatibleImageSizeRoundTrip();
    case SharedLibrary => SharedLibraryRoundTrip();
    case UnknownPluginService => UnknownPluginServiceRoundTrip();
    case UnknownDicomTag => UnknownDicomTagRoundTrip();
    case BadJson => BadJsonRoundTrip();
    case Unauthorized => UnauthorizedRoundTrip();
    case BadFont => BadFontRoundTrip();
    case DatabasePlugin => DatabasePluginRoundTrip();
    case StorageAreaPlugin => StorageAreaPluginRoundTrip();
    case EmptyRequest => EmptyRequestRoundTrip();
    case NotAcceptable => NotAcceptableRoundTrip();
    case NullPointer => NullPointerRoundTrip();
    case DatabaseUnavailable => DatabaseUnavailableRoundTrip();
    case CanceledJob => CanceledJobRoundTrip();
    case BadGeometry => BadGeometryRoundTrip();
    case SslInitialization => SslInitializationRoundTrip();
    case DiscontinuedAbi => DiscontinuedAbiRoundTrip();
    case BadRange => BadRangeRoundTrip();
    case DatabaseCannotSerialize => DatabaseCannotSerializeRoundTrip();
    case Revision => RevisionRoundTrip();
    case MainDicomTagsMultiplyDefined => MainDicomTagsMultiplyDefinedRoundTrip();
    case ForbiddenAccess => ForbiddenAccessRoundTrip();
    case SQLiteNotOpened => SQLiteNotOpenedRoundTrip();
    case SQLiteAlreadyOpened => SQLiteAlreadyOpenedRoundTrip();
    case SQLiteCannotOpen => SQLiteCannotOpenRoundTrip();
    case SQLiteStatementAlreadyUsed => SQLiteStatementAlreadyUsedRoundTrip();
    case SQLiteExecute => SQLiteExecuteRoundTrip();
    case SQLiteRollbackWithoutTransaction => SQLiteRollbackWithoutTransactionRoundTrip();
    case SQLiteCommitWithoutTransaction => SQLiteCommitWithoutTransactionRoundTrip();
    case SQLiteRegisterFunction => SQLiteRegisterFunctionRoundTrip();
    case SQLiteFlush => SQLiteFlushRoundTrip();
    case SQLiteCannotRun => SQLiteCannotRunRoundTrip();
    case SQLiteCannotStep => SQLiteCannotStepRoundTrip();
    case SQLiteBindOutOfRange => SQLiteBindOutOfRangeRoundTrip();
    case SQLitePrepareStatement => SQLitePrepareStatementRoundTrip();
    case SQLiteTransactionAlreadyStarted => SQLiteTransactionAlreadyStartedRoundTrip();
    case SQLiteTransactionCommit => SQLiteTransactionCommitRoundTrip();
    case SQLiteTransactionBegin => SQLiteTransactionBeginRoundTrip();
    case DirectoryOverFile => DirectoryOverFileRoundTrip();
    case FileStorageCannotWrite => FileStorageCannotWriteRoundTrip();
    case DirectoryExpected => DirectoryExpectedRoundTrip();
    case HttpPortInUse => HttpPortInUseRoundTrip();
    case DicomPortInUse => DicomPortInUseRoundTrip();
    case BadHttpStatusInRest => BadHttpStatusInRestRoundTrip();
    case RegularFileExpected => RegularFileExpectedRoundTrip();
    case PathToExecutable => PathToExecutableRoundTrip();
    case MakeDirectory => MakeDirectoryRoundTrip();
    case BadApplicationEntityTitle => BadApplicationEntityTitleRoundTrip();
    case NoCFindHandler => NoCFindHandlerRoundTrip();
    case NoCMoveHandler => NoCMoveHandlerRoundTrip();
    case NoCStoreHandler => NoCStoreHandlerRoundTrip();
    case NoApplicationEntityFilter => NoApplicationEntityFilterRoundTrip();
    case NoSopClassOrInstance => NoSopClassOrInstanceRoundTrip();
    case NoPresentationContext => NoPresentationContextRoundTrip();
    case DicomFindUnavailable => DicomFindUnavailableRoundTrip();
    case DicomMoveUnavailable => DicomMoveUnavailableRoundTrip();
    case CannotStoreInstance => CannotStoreInstanceRoundTrip();
    case CreateDicomNotString => CreateDicomNotStringRoundTrip();
    case CreateDicomOverrideTag => CreateDicomOverrideTagRoundTrip();
    case CreateDicomUseContent => CreateDicomUseContentRoundTrip();
    case CreateDicomNoPayload => CreateDicomNoPayloadRoundTrip();
    case CreateDicomUseDataUriScheme => CreateDicomUseDataUriSchemeRoundTrip();
    case CreateDicomBadParent => CreateDicomBadParentRoundTrip();
    case CreateDicomParentIsInstance => CreateDicomParentIsInstanceRoundTrip();
    case CreateDicomParentEncoding => CreateDicomParentEncodingRoundTrip();
    case UnknownModality => UnknownModalityRoundTrip();
    case BadJobOrdering => BadJobOrderingRoundTrip();
    case JsonToLuaTable => JsonToLuaTableRoundTrip();
    case CannotCreateLua => CannotCreateLuaRoundTrip();
    case CannotExecuteLua => CannotExecuteLuaRoundTrip();
    case LuaAlreadyExecuted => LuaAlreadyExecutedRoundTrip();
    case LuaBadOutput => LuaBadOutputRoundTrip();
    case NotLuaPredicate => NotLuaPredicateRoundTrip();
    case LuaReturnsNoString => LuaReturnsNoStringRoundTrip();
    case StorageAreaAlreadyRegistered => StorageAreaAlreadyRegisteredRoundTrip();
    case DatabaseBackendAlreadyRegistered => DatabaseBackendAlreadyRegisteredRoundTrip();
    case DatabaseNotInitialized => DatabaseNotInitializedRoundTrip();
    case SslDisabled => SslDisabledRoundTrip();
    case CannotOrderSlices => CannotOrderSlicesRoundTrip();
    case NoWorklistHandler => NoWorklistHandlerRoundTrip();
    case AlreadyExistingTag => AlreadyExistingTagRoundTrip();
    case NoStorageCommitmentHandler => NoStorageCommitmentHandlerRoundTrip();
    case NoCGetHandler => NoCGetHandlerRoundTrip();
    case UnsupportedMediaType => UnsupportedMediaTypeRoundTrip();
    case StartPlugins => StartPluginsRoundTrip();
  }

  /** No two members share a code, so looking a member up by its code is well defined. */
  lemma CodesDistinct(e1: ErrorCode, e2: ErrorCode)
    requires Code(e1) == Code(e2)
    ensures e1 == e2
  {
    CodeRoundTrip(e1);
    CodeRoundTrip(e2);
  }

  /** `ErrorCode_Success` is 0 and `ErrorCode_InternalError` is -1. */
  lemma SuccessAndInternalErrorCodes()
    ensures Code(Success) == 0 && FromCode(0) == W.Some(Success)
    ensures Code(InternalError) == -1 && FromCode(-1) == W.Some(InternalError)
  {
  }

  /** `OrthancErrorCode`'s values as declared: every member but the last ends in a comma. */
  function DeclaredValue(e: ErrorCode): EnumValue<int>
  {
    if e == StartPlugins then Plain(Code(e)) else Single(Code(e))
  }

  /** `OrthancErrorCode(v)`: the member whose declared value is `v`, if any (otherwise ValueError). */
  ghost function ValueLookupAsWritten(v: EnumValue<int>): W.Option<ErrorCode>
  {
    if exists e :: DeclaredValue(e) == v then W.Some(var e :| DeclaredValue(e) == v; e) else W.None
  }

  /**
   * As declared, looking a member up by its integer code fails for every
   * member but `ErrorCode_START_PLUGINS` (for instance `OrthancErrorCode(0)`),
   * while `FromCode` finds each of them.
   */
  lemma ValueLookupFailsAsWritten(e: ErrorCode)
    requires e != StartPlugins
    ensures ValueLookupAsWritten(Plain(Code(e))) == W.None
    ensures FromCode(Code(e)) == W.Some(e)
  {
    CodeRoundTrip(e);
    CodeRoundTrip(StartPlugins);
  }

  // One round trip per member, each checked on its own.
  lemma InternalErrorRoundTrip() ensures FromCode(Code(InternalError)) == W.Some(InternalError) {}
  lemma SuccessRoundTrip() ensures FromCode(Code(Success)) == W.Some(Success) {}
  lemma PluginRoundTrip() ensures FromCode(Code(Plugin)) == W.Some(Plugin) {}
  lemma NotImplementedRoundTrip() ensures FromCode(Code(NotImplemented)) == W.Some(NotImplemented) {}
  lemma ParameterOutOfRangeRoundTrip() ensures FromCode(Code(ParameterOutOfRange)) == W.Some(ParameterOutOfRange) {}
  lemma NotEnoughMemoryRoundTrip() ensures FromCode(Code(NotEnoughMemory)) == W.Some(NotEnoughMemory) {}
  lemma BadParameterTypeRoundTrip() ensures FromCode(Code(BadParameterType)) == W.Some(BadParameterType) {}
  lemma BadSequenceOfCallsRoundTrip() ensures FromCode(Code(BadSequenceOfCalls)) == W.Some(BadSequenceOfCalls) {}
  lemma InexistentItemRoundTrip() ensures FromCode(Code(InexistentItem)) == W.Some(InexistentItem) {}
  lemma BadRequestRoundTrip() ensures FromCode(Code(BadRequest)) == W.Some(BadRequest) {}
  lemma NetworkProtocolRoundTrip() ensures FromCode(Code(NetworkProtocol)) == W.Some(NetworkProtocol) {}
  lemma SystemCommandRoundTrip() ensures FromCode(Code(SystemCommand)) == W.Some(SystemCommand) {}
  lemma DatabaseRoundTrip() ensures FromCode(Code(Database)) == W.Some(Database) {}
  lemma UriSyntaxRoundTrip() ensures FromCode(Code(UriSyntax)) == W.Some(UriSyntax) {}
  lemma InexistentFileRoundTrip() ensures FromCode(Code(InexistentFile)) == W.Some(InexistentFile) {}
  lemma CannotWriteFileRoundTrip() ensures FromCode(Code(CannotWriteFile)) == W.Some(CannotWriteFile) {}
  lemma BadFileFormatRoundTrip() ensures FromCode(Code(BadFileFormat)) == W.Some(BadFileFormat) {}
  lemma TimeoutRoundTrip() ensures FromCode(Code(Timeout)) == W.Some(Timeout) {}
  lemma UnknownResourceRoundTrip() ensures FromCode(Code(UnknownResource)) == W.Some(UnknownResource) {}
  lemma IncompatibleDatabaseVersionRoundTrip() ensures FromCode(Code(IncompatibleDatabaseVersion)) == W.Some(IncompatibleDatabaseVersion) {}
  lemma FullStorageRoundTrip() ensures FromCode(Code(FullStorage)) == W.Some(FullStorage) {}
  lemma CorruptedFileRoundTrip() ensures FromCode(Code(CorruptedFile)) == W.Some(CorruptedFile) {}
  lemma InexistentTagRoundTrip() ensures FromCode(Code(InexistentTag)) == W.Some(InexistentTag) {}
  lemma ReadOnlyRoundTrip() ensures FromCode(Code(ReadOnly)) == W.Some(ReadOnly) {}
  lemma IncompatibleImageFormatRoundTrip() ensures FromCode(Code(IncompatibleImageFormat)) == W.Some(IncompatibleImageFormat) {}
  lemma IncompatibleImageSizeRoundTrip() ensures FromCode(Code(IncompatibleImageSize)) == W.Some(IncompatibleImageSize) {}
  lemma SharedLibraryRoundTrip() ensures FromCode(Code(SharedLibrary)) == W.Some(SharedLibrary) {}
  lemma UnknownPluginServiceRoundTrip() ensures FromCode(Code(UnknownPluginService)) == W.Some(UnknownPluginService) {}
  lemma UnknownDicomTagRoundTrip() ensures FromCode(Code(UnknownDicomTag)) == W.Some(UnknownDicomTag) {}
  lemma BadJsonRoundTrip() ensures FromCode(Code(BadJson)) == W.Some(BadJson) {}
  lemma UnauthorizedRoundTrip() ensures FromCode(Code(Unauthorized)) == W.Some(Unauthorized) {}
  lemma BadFontRoundTrip() ensures FromCode(Code(BadFont)) == W.Some(BadFont) {}
  lemma DatabasePluginRoundTrip() ensures FromCode(Code(DatabasePlugin)) == W.Some(DatabasePlugin) {}
  lemma StorageAreaPluginRoundTrip() ensures FromCode(Code(StorageAreaPlugin)) == W.Some(StorageAreaPlugin) {}
  lemma EmptyRequestRoundTrip() ensures FromCode(Code(EmptyRequest)) == W.Some(EmptyRequest) {}
  lemma NotAcceptableRoundTrip() ensures FromCode(Code(NotAcceptable)) == W.Some(NotAcceptable) {}
  lemma NullPointerRoundTrip() ensures FromCode(Code(NullPointer)) == W.Some(NullPointer) {}
  lemma DatabaseUnavailableRoundTrip() ensures FromCode(Code(DatabaseUnavailable)) == W.Some(DatabaseUnavailable) {}
  lemma CanceledJobRoundTrip() ensures FromCode(Code(CanceledJob)) == W.Some(CanceledJob) {}
  lemma BadGeometryRoundTrip() ensures FromCode(Code(BadGeometry)) == W.Some(BadGeometry) {}
  lemma SslInitializationRoundTrip() ensures FromCode(Code(SslInitialization)) == W.Some(SslInitialization) {}
  lemma DiscontinuedAbiRoundTrip() ensures FromCode(Code(DiscontinuedAbi)) == W.Some(DiscontinuedAbi) {}
  lemma BadRangeRoundTrip() ensures FromCode(Code(BadRange)) == W.Some(BadRange) {}
  lemma DatabaseCannotSerializeRoundTrip() ensures FromCode(Code(DatabaseCannotSerialize)) == W.Some(DatabaseCannotSerialize) {}
  lemma RevisionRoundTrip() ensures FromCode(Code(Revision)) == W.Some(Revision) {}
  lemma MainDicomTagsMultiplyDefinedRoundTrip() ensures FromCode(Code(MainDicomTagsMultiplyDefined)) == W.Some(MainDicomTagsMultiplyDefined) {}
  lemma ForbiddenAccessRoundTrip() ensures FromCode(Code(ForbiddenAccess)) == W.Some(ForbiddenAccess) {}
  lemma SQLiteNotOpenedRoundTrip() ensures FromCode(Code(SQLiteNotOpened)) == W.Some(SQLiteNotOpened) {}
  lemma SQLiteAlreadyOpenedRoundTrip() ensures FromCode(Code(SQLiteAlreadyOpened)) == W.Some(SQLiteAlreadyOpened) {}
  lemma SQLiteCannotOpenRoundTrip() ensures FromCode(Code(SQLiteCannotOpen)) == W.Some(SQLiteCannotOpen) {}
  lemma SQLiteStatementAlreadyUsedRoundTrip() ensures FromCode(Code(SQLiteStatementAlreadyUsed)) == W.Some(SQLiteStatementAlreadyUsed) {}
  lemma SQLiteExecuteRoundTrip() ensures FromCode(Code(SQLiteExecute)) == W.Some(SQLiteExecute) {}
  lemma SQLiteRollbackWithoutTransactionRoundTrip() ensures FromCode(Code(SQLiteRollbackWithoutTransaction)) == W.Some(SQLiteRollbackWithoutTransaction) {}
  lemma SQLiteCommitWithoutTransactionRoundTrip() ensures FromCode(Code(SQLiteCommitWithoutTransaction)) == W.Some(SQLiteCommitWithoutTransaction) {}
  lemma SQLiteRegisterFunctionRoundTrip() ensures FromCode(Code(SQLiteRegisterFunction)) == W.Some(SQLiteRegisterFunction) {}
  lemma SQLiteFlushRoundTrip() ensures FromCode(Code(SQLiteFlush)) == W.Some(SQLiteFlush) {}
  lemma SQLiteCannotRunRoundTrip() ensures FromCode(Code(SQLiteCannotRun)) == W.Some(SQLiteCannotRun) {}
  lemma SQLiteCannotStepRoundTrip() ensures FromCode(Code(SQLiteCannotStep)) == W.Some(SQLiteCannotStep) {}
  lemma SQLiteBindOutOfRangeRoundTrip() ensures FromCode(Code(SQLiteBindOutOfRange)) == W.Some(SQLiteBindOutOfRange) {}
  lemma SQLitePrepareStatementRoundTrip() ensures FromCode(Code(SQLitePrepareStatement)) == W.Some(SQLitePrepareStatement) {}
  lemma SQLiteTransactionAlreadyStartedRoundTrip() ensures FromCode(Code(SQLiteTransactionAlreadyStarted)) == W.Some(SQLiteTransactionAlreadyStarted) {}
  lemma SQLiteTransactionCommitRoundTrip() ensures FromCode(Code(SQLiteTransactionCommit)) == W.Some(SQLiteTransactionCommit) {}
  lemma SQLiteTransactionBeginRoundTrip() ensures FromCode(Code(SQLiteTransactionBegin)) == W.Some(SQLiteTransactionBegin) {}
  lemma DirectoryOverFileRoundTrip() ensures FromCode(Code(DirectoryOverFile)) == W.Some(DirectoryOverFile) {}
  lemma FileStorageCannotWriteRoundTrip() ensures FromCode(Code(FileStorageCannotWrite)) == W.Some(FileStorageCannotWrite) {}
  lemma DirectoryExpectedRoundTrip() ensures FromCode(Code(DirectoryExpected)) == W.Some(DirectoryExpected) {}
  lemma HttpPortInUseRoundTrip() ensures FromCode(Code(HttpPortInUse)) == W.Some(HttpPortInUse) {}
  lemma DicomPortInUseRoundTrip() ensures FromCode(Code(DicomPortInUse)) == W.Some(DicomPortInUse) {}
  lemma BadHttpStatusInRestRoundTrip() ensures FromCode(Code(BadHttpStatusInRest)) == W.Some(BadHttpStatusInRest) {}
  lemma RegularFileExpectedRoundTrip() ensures FromCode(Code(RegularFileExpected)) == W.Some(RegularFileExpected) {}
  lemma PathToExecutableRoundTrip() ensures FromCode(Code(PathToExecutable)) == W.Some(PathToExecutable) {}
  lemma MakeDirectoryRoundTrip() ensures FromCode(Code(MakeDirectory)) == W.Some(MakeDirectory) {}
  lemma BadApplicationEntityTitleRoundTrip() ensures FromCode(Code(BadApplicationEntityTitle)) == W.Some(BadApplicationEntityTitle) {}
  lemma NoCFindHandlerRoundTrip() ensures FromCode(Code(NoCFindHandler)) == W.Some(NoCFindHandler) {}
  lemma NoCMoveHandlerRoundTrip() ensures FromCode(Code(NoCMoveHandler)) == W.Some(NoCMoveHandler) {}
  lemma NoCStoreHandlerRoundTrip() ensures FromCode(Code(NoCStoreHandler)) == W.Some(NoCStoreHandler) {}
  lemma NoApplicationEntityFilterRoundTrip() ensures FromCode(Code(NoApplicationEntityFilter)) == W.Some(NoApplicationEntityFilter) {}
  lemma NoSopClassOrInstanceRoundTrip() ensures FromCode(Code(NoSopClassOrInstance)) == W.Some(NoSopClassOrInstance) {}
  lemma NoPresentationContextRoundTrip() ensures FromCode(Code(NoPresentationContext)) == W.Some(NoPresentationContext) {}
  lemma DicomFindUnavailableRoundTrip() ensures FromCode(Code(DicomFindUnavailable)) == W.Some(DicomFindUnavailable) {}
  lemma DicomMoveUnavailableRoundTrip() ensures FromCode(Code(DicomMoveUnavailable)) == W.Some(DicomMoveUnavailable) {}
  lemma CannotStoreInstanceRoundTrip() ensures FromCode(Code(CannotStoreInstance)) == W.Some(CannotStoreInstance) {}
  lemma CreateDicomNotStringRoundTrip() ensures FromCode(Code(CreateDicomNotString)) == W.Some(CreateDicomNotString) {}
  lemma CreateDicomOverrideTagRoundTrip() ensures FromCode(Code(CreateDicomOverrideTag)) == W.Some(CreateDicomOverrideTag) {}
  lemma CreateDicomUseContentRoundTrip() ensures FromCode(Code(CreateDicomUseContent)) == W.Some(CreateDicomUseContent) {}
  lemma CreateDicomNoPayloadRoundTrip() ensures FromCode(Code(CreateDicomNoPayload)) == W.Some(CreateDicomNoPayload) {}
  lemma CreateDicomUseDataUriSchemeRoundTrip() ensures FromCode(Code(CreateDicomUseDataUriScheme)) == W.Some(CreateDicomUseDataUriScheme) {}
  lemma CreateDicomBadParentRoundTrip() ensures FromCode(Code(CreateDicomBadParent)) == W.Some(CreateDicomBadParent) {}
  lemma CreateDicomParentIsInstanceRoundTrip() ensures FromCode(Code(CreateDicomParentIsInstance)) == W.Some(CreateDicomParentIsInstance) {}
  lemma CreateDicomParentEncodingRoundTrip() ensures FromCode(Code(CreateDicomParentEncoding)) == W.Some(CreateDicomParentEncoding) {}
  lemma UnknownModalityRoundTrip() ensures FromCode(Code(UnknownModality)) == W.Some(UnknownModality) {}
  lemma BadJobOrderingRoundTrip() ensures FromCode(Code(BadJobOrdering)) == W.Some(BadJobOrdering) {}
  lemma JsonToLuaTableRoundTrip() ensures FromCode(Code(JsonToLuaTable)) == W.Some(JsonToLuaTable) {}
  lemma CannotCreateLuaRoundTrip() ensures FromCode(Code(CannotCreateLua)) == W.Some(CannotCreateLua) {}
  lemma CannotExecuteLuaRoundTrip() ensures FromCode(Code(CannotExecuteLua)) == W.Some(CannotExecuteLua) {}
  lemma LuaAlreadyExecutedRoundTrip() ensures FromCode(Code(LuaAlreadyExecuted)) == W.Some(LuaAlreadyExecuted) {}
  lemma LuaBadOutputRoundTrip() ensures FromCode(Code(LuaBadOutput)) == W.Some(LuaBadOutput) {}
  lemma NotLuaPredicateRoundTrip() ensures FromCode(Code(NotLuaPredicate)) == W.Some(NotLuaPredicate) {}
  lemma LuaReturnsNoStringRoundTrip() ensures FromCode(Code(LuaReturnsNoString)) == W.Some(LuaReturnsNoString) {}
  lemma StorageAreaAlreadyRegisteredRoundTrip() ensures FromCode(Code(StorageAreaAlreadyRegistered)) == W.Some(StorageAreaAlreadyRegistered) {}
  lemma DatabaseBackendAlreadyRegisteredRoundTrip() ensures FromCode(Code(DatabaseBackendAlreadyRegistered)) == W.Some(DatabaseBackendAlreadyRegistered) {}
  lemma DatabaseNotInitializedRoundTrip() ensures FromCode(Code(DatabaseNotInitialized)) == W.Some(DatabaseNotInitialized) {}
  lemma SslDisabledRoundTrip() ensures FromCode(Code(SslDisabled)) == W.Some(SslDisabled) {}
  lemma CannotOrderSlicesRoundTrip() ensures FromCode(Code(CannotOrderSlices)) == W.Some(CannotOrderSlices) {}
  lemma NoWorklistHandlerRoundTrip() ensures FromCode(Code(NoWorklistHandler)) == W.Some(NoWorklistHandler) {}
  lemma AlreadyExistingTagRoundTrip() ensures FromCode(Code(AlreadyExistingTag)) == W.Some(AlreadyExistingTag) {}
  lemma NoStorageCommitmentHandlerRoundTrip() ensures FromCode(Code(NoStorageCommitmentHandler)) == W.Some(NoStorageCommitmentHandler) {}
  lemma NoCGetHandlerRoundTrip() ensures FromCode(Code(NoCGetHandler)) == W.Some(NoCGetHandler) {}
  lemma UnsupportedMediaTypeRoundTrip() ensures FromCode(Code(UnsupportedMediaType)) == W.Some(UnsupportedMediaType) {}
  lemma StartPluginsRoundTrip() ensures FromCode(Code(StartPlugins)) == W.Some(StartPlugins) {}
}
