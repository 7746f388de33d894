/**
 * JSON values as the hub sees them, the codec it relies on, and the two
 * messages the server itself builds: the `file` notification of an upload
 * and the `text` welcome sent to a joining client.
 */
module Json {

  datatype Option<+T> = None | Some(value: T)

  /** A JSON value. An object is its list of members; for the two messages
      the server builds (string keys, all distinct) that list is also the
      order in which `JSON.stringify` writes them. */
  datatype Json =
    | JNull
    | JBool(b: bool)
    | JNum(n: real)
    | JStr(s: string)
    | JArr(items: seq<Json>)
    | JObj(members: seq<(string, Json)>)

  /** The serialisation the server calls into: `parse` may fail (the source's
      `JSON.parse` throws), `stringify` always yields a string. */
  datatype Codec = Codec(parse: string -> Option<Json>, stringify: Json -> string)

  /** The value of the first member called `key`, if there is one. It is
      only used on the server's own messages, whose keys are distinct. */
  function Lookup(members: seq<(string, Json)>, key: string): Option<Json>
  {
    if members == [] then None
    else if members[0].0 == key then Some(members[0].1)
    else Lookup(members[1..], key)
  }

  /** With keys before position `i` all different from its key, a lookup of
      that key finds the member at `i`. */
  lemma {:induction false} LookupFindsFirst(members: seq<(string, Json)>, i: nat)
    requires i < |members|
    requires forall j :: 0 <= j < i ==> members[j].0 != members[i].0
    ensures Lookup(members, members[i].0) == Some(members[i].1)
  {
    if i > 0 {
      LookupFindsFirst(members[1..], i - 1);
    }
  }

  /** Property access `v[key]` on an object; anything else has no members. */
  function Field(v: Json, key: string): Option<Json>
  {
    if v.JObj? then Lookup(v.members, key) else None
  }

  /** What multer reports about a stored upload. `filename` is the name the
      storage assigned; it is an input here, not computed. */
  datatype UploadInfo = UploadInfo(filename: string, originalname: string, mimetype: string, size: nat)

  /** The `file` message built from an upload record: an object whose
      `type` is "file" and whose other four members are the record's fields,
      and nothing more. */
  function FileMessage(u: UploadInfo): (m: Json)
    ensures Field(m, "type") == Some(JStr("file"))
    ensures Field(m, "filename") == Some(JStr(u.filename))
    ensures Field(m, "originalname") == Some(JStr(u.originalname))
    ensures Field(m, "mimetype") == Some(JStr(u.mimetype))
    ensures Field(m, "size") == Some(JNum(u.size as real))
    ensures m.JObj? && |m.members| == 5
  {
    var ms := [("type", JStr("file")),
               ("filename", JStr(u.filename)),
               ("originalname", JStr(u.originalname)),
               ("mimetype", JStr(u.mimetype)),
               ("size", JNum(u.size as real))];
    LookupFindsFirst(ms, 0);
    LookupFindsFirst(ms, 1);
    LookupFindsFirst(ms, 2);
    LookupFindsFirst(ms, 3);
    LookupFindsFirst(ms, 4);
    JObj(ms)
  }

  const WelcomeText: string := "Welcome to the WebSocket server!"

  /** A `text` message with the given content and no further members. */
  function TextMessage(content: string): Json
  {
    JObj([("type", JStr("text")), ("content", JStr(content))])
  }

  /** A text message is an object whose `type` is "text" and whose only
      other member is its content. */
  lemma TextMessageFields(content: string)
    ensures var m := TextMessage(content);
      && Field(m, "type") == Some(JStr("text"))
      && Field(m, "content") == Some(JStr(content))
      && m.JObj? && |m.members| == 2
  {
    var ms := TextMessage(content).members;
    LookupFindsFirst(ms, 0);
    LookupFindsFirst(ms, 1);
  }

  /** The greeting sent to every joining client after the replay: a `text`
      message whose content is the welcome sentence, and nothing more. */
  function Welcome(): (m: Json)
    ensures Field(m, "type") == Some(JStr("text"))
    ensures Field(m, "content") == Some(JStr(WelcomeText))
    ensures m.JObj? && |m.members| == 2
  {
    TextMessageFields(WelcomeText);
    TextMessage(WelcomeText)
  }

  /** `JSON.parse` gives back the file message `JSON.stringify` wrote: the
      message holds only strings and a non-negative integer, under distinct keys. */
  ghost predicate RoundTripsFileMessages(c: Codec)
  {
    forall u: UploadInfo :: c.parse(c.stringify(FileMessage(u))) == Some(FileMessage(u))
  }
}
