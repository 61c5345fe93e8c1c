/** The fixed configuration the upload path depends on: the backend address, the size
    above which a file is sent in chunks, the chunk size and the direct-upload timeout. */
module Config {

  const BACKEND_API_URL: string := "http://localhost:8478"

  /** Files strictly larger than this many bytes make the route switch to chunked upload. */
  const MAX_DIRECT_UPLOAD_SIZE: nat := 10 * 1024 * 1024

  /** The byte length of every chunk but the last. */
  const CHUNK_SIZE: nat := 5 * 1024 * 1024

  /** Milliseconds before a direct upload is aborted. */
  const API_REQUEST_TIMEOUT: nat := 180000

  /** The constants' values and the relations between them. */
  lemma ConfigValues()
    ensures MAX_DIRECT_UPLOAD_SIZE == 10485760
    ensures CHUNK_SIZE == 5242880 && 2 * CHUNK_SIZE == MAX_DIRECT_UPLOAD_SIZE
    ensures API_REQUEST_TIMEOUT == 3 * 60 * 1000
  {
  }
}
