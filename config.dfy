/** The upload constants of the bot's configuration file. */
module Config {

  /** Largest file size accepted at admission: 2 GiB. */
  const MaxFileSize: nat := 2 * 1024 * 1024 * 1024

  /** Directory that holds the staging copies of downloaded files. */
  const UploadFolder: string := "uploads"
}
