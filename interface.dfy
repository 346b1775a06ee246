/** The capability contract every storage backend offers, and the foreign
    decoders (Buffer, JSON) that turn a file body into a value. */
module Interface {

  import opened Wrappers
  import opened Js
  import opened Common

  newtype Byte = b: int | 0 <= b < 256
  type Bytes = seq<Byte>

  datatype TreeQuery = TreeQuery(projectId: string, ref: string, path: string, page: string)
  datatype FileQuery = FileQuery(projectId: string, ref: string, file: string)

  /** What a `before` hook is shown of a request; an absent field is undefined. */
  datatype BeforeData = BeforeData(path: Option<string>, ref: Option<string>)

  /** One entry of a tree listing. */
  datatype TreeFile = TreeFile(id: string, path: string)

  /** A file as `readFile` returns it: content in the declared encoding. */
  datatype BackendFile = BackendFile(blobId: string, content: string, encoding: string, filePath: string)

  /** A backend answer: response headers and body. */
  datatype Reply<B> = Reply(headers: Headers, body: B)

  datatype ActionKind = Create | Delete | Move | Update

  datatype CommitAction = CommitAction(
    action: ActionKind,
    filePath: string,
    content: Option<string>,
    encoding: Option<string>)

  datatype CommitBody = CommitBody(actions: seq<CommitAction>, branch: string, commitMessage: string)

  /** The two read operations of a backend, as seen at the moment of a call. */
  datatype Backend = Backend(
    tree: TreeQuery -> Res<Reply<seq<TreeFile>>>,
    readFile: FileQuery -> Res<Reply<BackendFile>>)

  /** One request issued to a backend. */
  datatype Call = TreeCall(treeQuery: TreeQuery) | ReadCall(fileQuery: FileQuery)

  /** `Buffer.from(content, encoding)`, `.toString("utf8")` and `JSON.parse`. */
  datatype Codec = Codec(
    decode: (string, string) -> Res<Bytes>,
    utf8: Bytes -> string,
    parse: string -> Res<JsValue>)

  /** `JSON.parse(Buffer.from(f.content, f.encoding).toString("utf8"))`. */
  function ParseContent(codec: Codec, f: BackendFile): Res<JsValue>
  {
    var bytes :- codec.decode(f.content, f.encoding);
    codec.parse(codec.utf8(bytes))
  }
}
