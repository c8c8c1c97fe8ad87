/** What the handler does to the outside world, abstracted: the outcome each
    external call will have is an input, and what the handler attempted is an
    ordered trace of effects plus the set of temporary files it leaves behind. */
module Effects {
  import opened Js

  /** The settled outcome of an awaited call whose value is not used. */
  datatype Status = Done | Failed(error: Error)

  /** One outbound effect, recorded when it is attempted. */
  datatype Effect =
    | Download(path: string)               // GET the random image, write it to `path`
    | UploadFile(url: string, path: string) // multipart POST of `path` to `url`
    | Unlink(path: string)                 // delete the temporary file
    | PostMessage(url: string, body: string) // form POST of a message body to `url`

  /** The effects attempted so far, oldest first, and the temporary files that
      currently exist because of them. */
  datatype World = World(trace: seq<Effect>, files: set<string>)

  /** The state of a fresh request: nothing attempted, no temporary file. */
  const Initial: World := World([], {})

  /** What an awaited helper settled with, and the world after it. */
  datatype Step<T> = Step(result: Result<T>, world: World)

  /** The outcomes the external world will give this request, one per call,
      and the millisecond clock reading that names the temporary file. */
  datatype Outcomes = Outcomes(
    now: nat,
    download: Status,         // axios.get of the image, then fs.writeFile
    upload: Result<Value>,    // axios.post of the file: response.data, or the error
    unlink: Status,           // fs.unlink of the temporary file
    reply: Status)            // axios.post of the reply message

  /** How many times `e` occurs in `trace`. */
  function Occurrences(trace: seq<Effect>, e: Effect): nat {
    multiset(trace)[e]
  }
}
