/** The webOS 3.0.5 error codes that the modelled code replies with. */
module PrintErrors {
  const PRINTER_DUPLICATE_ID := -204
  const PRINTER_DUPLICATE_IP := -205
  const JOB_TEMP_FILE_NO_ROOM := -233
  const JOB_ALREADY_CLOSED := -501
  const FILE_ZERO_LENGTH := -601
  const INSETS_WITH_BORDERLESS := -602
  const EMPTY_FILE_EXTENSION := -603
  const FILE_DOES_NOT_EXIST := -604
  const BAD_COLOR := -605
  const BAD_DRYTIME := -606
  const BAD_DUPLEX := -607
  const BAD_MEDIA_SIZE := -608
  const BAD_MEDIA_TYPE := -609
  const BAD_PARAM_SYNTAX := -610
  const BAD_PRINT_QUALITY := -611
  const BAD_TRAY := -612
  const INSET_OUTSIDE_AREA := -613
  const NO_FILES_TO_PRINT := -614
  const OUT_OF_ORDER_CURRENTPAGE := -615
  const TEMP_FILE_TOO_LARGE := -616
  const UNKNOWN_JOB_ID := -617
  const UNSUPPORTED_MIME_TYPE := -618
  const FILE_NOT_IN_ANY_JOB := -620
  const PRINTER_DB_ACCESS := -702
  const JOB_ADD_PAGE_FAILED := -703
  const NO_FILECACHE_PATH := -705
  const JOB_CANCEL_FAILED := -709
  const JOB_START_FAILED := -711
}
