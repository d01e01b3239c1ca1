/** The vocabulary shared by every part of the model. */
module Types {
  datatype Option<+T> = None | Some(value: T)

  /** Why a call to a dependency returned an error. */
  datatype Problem = Unavailable | NotFound | Unsupported
  datatype Try<+T> = Success(value: T) | Failure(problem: Problem)

  newtype uint8 = x: int | 0 <= x < 256
  type Bytes = seq<uint8>

  /** How one external call goes wrong: not at all, before it had its effect, or after it. */
  datatype Fault = NoFault | Before | After

  datatype Status = Pending | Validating | Processing | Complete | Failed | Rejected | Abandoned

  /** One row of the uploads table; the id is the key it is stored under. */
  datatype Row = Row(filename: string, contentType: string, status: Status, owner: string, created: nat)

  datatype Spec = Spec(name: string, w: int, h: int)

  /** What a deployment fixes: the list of sizes, which 512-byte prefixes sniff as JPEG or PNG,
      and the image service as a deterministic partial function. */
  datatype Config = Config(specs: seq<Spec>, sniffs: Bytes -> bool, resize: (Bytes, int, int) -> Option<Bytes>)

  const ORIGINAL: string := "original"
  const SIZES: seq<Spec> := [Spec("12x12", 12, 12), Spec("25x25", 25, 25)]
  const MAX_IMAGE_BYTES: nat := 200 * 1024 * 1024
  const SNIFF_BYTES: nat := 512
  /** Seconds the workflow waits for the completion signal. */
  const UPLOAD_TIMEOUT: nat := 15 * 60
  /** Seconds a presigned URL is accepted for. */
  const PRESIGN_TTL: nat := 15 * 60

  /** The premise on the list of sizes: distinct names, none of them the original's. */
  ghost predicate Good(cfg: Config) {
    && (forall i, j :: 0 <= i < j < |cfg.specs| ==> cfg.specs[i].name != cfg.specs[j].name)
    && (forall i :: 0 <= i < |cfg.specs| ==> cfg.specs[i].name != ORIGINAL)
  }

  function Prefix(b: Bytes, n: nat): Bytes {
    if n <= |b| then b[..n] else b
  }

  /** The two checks Validate makes, as a property of the whole object. */
  predicate Passes(cfg: Config, b: Bytes) {
    cfg.sniffs(Prefix(b, SNIFF_BYTES)) && |b| <= MAX_IMAGE_BYTES
  }

  predicate Terminal(st: Status) {
    st.Complete? || st.Failed? || st.Rejected? || st.Abandoned?
  }
}
