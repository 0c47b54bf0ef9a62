/** The configuration values the core reads. Reading and interpolating the
    INI file is outside the model; a run works against one immutable record. */
module Settings {

  datatype Settings = Settings(
    configPath: string,
    // controller
    controllerSkipExisting: bool,
    multiColumnSkewEnabled: bool,
    inputPathPrefix: string,
    outputPathPrefix: string,
    // globus
    globusClusterEndpoint: string,
    globusRemoteEndpoint: string,
    globusMinActivationTime: int,
    // scheduler
    maxJobs: int,
    schedulerQueue: string,
    schedulerTransferQueue: string,
    schedulerJobName: string,
    schedulerLogdir: string,
    schedulerMemPerCpu: string,
    schedulerCpusPerTask: string,
    schedulerSetWalltime: bool,
    schedulerExtraArgs: string
  )
}
