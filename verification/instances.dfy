/** An instance record as returned by the service-discovery registry. */
module Instances {

  /** One registered service instance at query time. The registry's port is
      a plain integer; nothing here restricts it to 0..65535. */
  datatype Instance = Instance(
    appName: string,
    id: string,
    status: string,
    ip: string,
    port: int
  )

  /** The only status value the tool distinguishes (compared exactly, case-sensitively). */
  const UpStatus: string := "UP"

}
