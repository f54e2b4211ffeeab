/**
 * Values shared by every part of the pipeline model: optional values,
 * the Python exceptions the pipeline can raise, the JSON-ish values that
 * flow into the webhook envelopes, HTTP responses as the code sees them,
 * and the posix path functions the staging code uses.
 */
module Common {

  datatype Option<T> = None | Some(value: T)

  datatype Result<T> = Success(value: T) | Failure(error: PyError)

  /** One byte of a downloaded or generated file; file contents are opaque. */
  newtype byte = x: int | 0 <= x < 256

  type Bytes = seq<byte>

  /** The exceptions the modelled code raises or catches. */
  datatype PyError =
    | IndexError                // a list is indexed past its end
    | KeyError                  // a decoded JSON document lacks a key
    | JSONDecodeError           // `json.loads` of text that is not JSON
    | TypeError                 // a call has the wrong number of positional arguments
    | ConnectionError           // a request, the socket or the transport failed
    | HTTPError(status: int)    // `raise_for_status` on a 4xx or 5xx status
    | CalledProcessError(code: int)  // `subprocess.run(..., check=True)` on a non-zero exit
    | FileNotFoundError         // `open` of a file that is not there
    | ImageCodecError           // the image codec could not decode or encode

  /** A Python value as it is passed to a call or stored in an envelope field. */
  datatype PyValue =
    | PyNone
    | PyStr(s: string)
    | PyList(items: seq<string>)
    | PyTuple(elems: seq<PyValue>)

  /**
   * What an HTTP GET gives back: a response with its status code and body,
   * or a transport failure, which `requests` raises as an exception.
   */
  datatype Response = Response(status: int, body: Bytes) | Unreachable

  /** JSON strings that may be null, as the request payloads carry them. */
  type Text = Option<string>

  /** How an f-string renders a string or None: `f"{None}"` is "None". */
  function Show(v: Text): string
  {
    match v
    case None => "None"
    case Some(s) => s
  }

  /** Python truthiness of a string or None. */
  predicate Truthy(v: Text)
  {
    v.Some? && v.value != ""
  }

  /** The file name `f"{id}.{format}"` every staging variant builds. */
  function FileName(id: Text, format: Text): string
  {
    Show(id) + "." + Show(format)
  }

  /** `posixpath.join(root, name)` for two arguments. */
  function Join(root: string, name: string): string
  {
    if |name| > 0 && name[0] == '/' then name
    else if root == "" || root[|root| - 1] == '/' then root + name
    else root + "/" + name
  }

  /** `posixpath.basename(p)`: everything after the last '/'. */
  function Basename(p: string): (r: string)
    ensures '/' !in r
    ensures |r| <= |p| && r == p[|p| - |r|..]
    ensures |r| == |p| || p[|p| - |r| - 1] == '/'
  {
    if p == [] || p[|p| - 1] == '/' then []
    else Basename(p[..|p| - 1]) + [p[|p| - 1]]
  }

  /** A name without '/' placed after an empty prefix or a '/' is its own basename. */
  lemma {:induction false} BasenameAfterSlash(x: string, b: string)
    requires x == [] || x[|x| - 1] == '/'
    requires '/' !in b
    ensures Basename(x + b) == b
  {
    if b == [] {
      assert x + b == x;
    } else {
      var xb := x + b;
      var last := b[|b| - 1];
      assert last in b;
      assert xb[..|xb| - 1] == x + b[..|b| - 1];
      assert xb[|xb| - 1] == last;
      assert Basename(xb) == Basename(x + b[..|b| - 1]) + [last];
      BasenameAfterSlash(x, b[..|b| - 1]);
      assert b[..|b| - 1] + [last] == b;
    }
  }

  /** Joining a slash-free name under any directory keeps it as the basename. */
  lemma BasenameOfJoin(dir: string, b: string)
    requires '/' !in b
    ensures Basename(Join(dir, b)) == b
  {
    assert |b| > 0 ==> b[0] in b;
    if dir == "" || dir[|dir| - 1] == '/' {
      BasenameAfterSlash(dir, b);
    } else {
      assert dir + "/" + b == (dir + "/") + b;
      BasenameAfterSlash(dir + "/", b);
    }
  }

  /** A relative name is joined below its directory and ends the joined path. */
  lemma JoinShape(dir: string, b: string)
    requires |b| > 0 && b[0] != '/'
    ensures |Join(dir, b)| >= |dir| + |b|
    ensures Join(dir, b)[..|dir|] == dir
    ensures Join(dir, b)[|Join(dir, b)| - |b|..] == b
  {
  }
}
