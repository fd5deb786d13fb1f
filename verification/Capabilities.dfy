/** The capabilities that events are seen to exercise. */
module Capabilities {

  datatype Capability = DatabaseRead | DatabaseWrite | NetworkConnect | FilesystemRead | FilesystemWrite
                      | ProcessExecute | AdminOperation | SessionAuthenticate | DataExport

  function CapabilityName(c: Capability): string {
    match c
    case DatabaseRead => "database.read"
    case DatabaseWrite => "database.write"
    case NetworkConnect => "network.connect"
    case FilesystemRead => "filesystem.read"
    case FilesystemWrite => "filesystem.write"
    case ProcessExecute => "process.execute"
    case AdminOperation => "admin.operation"
    case SessionAuthenticate => "session.authenticate"
    case DataExport => "data.export"
  }
}
