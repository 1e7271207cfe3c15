/** What the proxies send back to the media player that asked them. */
module Http {
  import opened Wrappers

  /** The body written after the headers. */
  datatype Body = NoBody | Text(text: string) | Bytes(bytes: seq<bv8>)

  /** A status line, an optional Content-Type header and a body. */
  datatype Answer = Answer(status: int, contentType: Option<string>, body: Body)

  /** `base64.b64decode("0Nsco7MAgxowGvkUT8aYag==")`, the AES-128 key both proxies hand out. */
  const HlsAesKey: seq<bv8> := [208, 219, 28, 163, 179, 0, 131, 26, 48, 26, 249, 20, 79, 198, 152, 106]

  const ManifestType := "application/x-mpegURL"
  const AudioType := "audio/x-aac"
  const KeyType := "text/plain"

  /** The answer to a key request. */
  function KeyAnswer(): Answer {
    Answer(200, Some(KeyType), Bytes(HlsAesKey))
  }

  /** A bare status line with no headers and no body. */
  function Status(code: int): Answer {
    Answer(code, None, NoBody)
  }
}
