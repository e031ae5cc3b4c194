/** The configuration errors a compilation can end with.  Every one is
    terminal: no partial pipeline graph is produced. */
module ConfigErrors {

  datatype ConfigError =
    | MissingReceivers            // no receiver configured
    | EmptyReceiverSettings       // a receiver given without any settings
    | AmbiguousExportTarget       // push_config and remote_write both set, or neither
    | DuplicateBatchConfig        // push_config.batch and batch both set
    | AmbiguousMetricsExporter    // spanmetrics with both prom_instance and handler_endpoint, or neither
    | SecretUnreadable(path: string)  // a password_file that cannot be read
}
