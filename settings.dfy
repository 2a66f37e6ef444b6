/**
 * The configuration record (`config` in main.go). It is read once at
 * startup by a loader that is not part of this model and never changes
 * afterwards; the core only reads it.
 */
module Settings {

  datatype Config = Config(
    username: string,          // ssh user
    password: string,          // ssh password, empty when a key file is used
    ndsHostname: string,       // "host:22"
    name: string,              // value of the "Captive Portal" tag
    sshKey: bool,
    selfMonitor: bool,         // emit the ProbeTime point
    refresh: int,              // tick interval in seconds
    influxdbServer: string,    // store address
    influxDB: string,          // database the batches are written to
    influxUsername: string,
    influxPassword: string,
    allowRestart: bool)        // restart the portal service when it is down
}
