/** The logging vocabulary of SFNetworkKit: the log level a request asks for
    and the event monitors a session can carry, among them the library's own
    logger. */
module Logging {
  /** `LogLevelType`: how much the logger writes about a request. */
  datatype LogLevelType = None | Simple | Verbose

  /** An Alamofire `EventMonitor`: the library's `AlamofireLogger` at some
      level, or one supplied by the application. */
  datatype EventMonitor = Logger(level: LogLevelType) | ApplicationMonitor(id: nat)
}
