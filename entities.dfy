/** The rows and values the webhook app works with: subjects, listeners,
    messages, message-queue rows and webhook registrations. */
module Entities {

  datatype Option<+T> = None | Some(value: T)

  datatype Result<+T, +E> = Success(value: T) | Failure(error: E)

  /** A content type: the model a row belongs to ("app_label.model"). */
  type TypeId = string

  type MessageId = nat
  type QueueId = nat
  /** A listener is named by its position in the listener table. */
  type ListenerId = nat
  type Timestamp = nat

  /** What a generic foreign key stores: the content type and the primary key. */
  datatype ObjKey = ObjKey(objType: TypeId, objId: nat)

  /** The attributes of a subject, each as the string a CharField lookup compares with. */
  type Props = map<string, string>

  /** `getattr(obj, name)`: an empty name, or one the object does not have,
      raises AttributeError (None here). */
  function Attr(obj: Props, name: string): Option<string>
  {
    if name != "" && name in obj then Some(obj[name]) else None
  }

  /** The exceptions the core can raise. */
  datatype Error =
    | AttributeError(name: string)      // getattr on the subject failed
    | MissingObject(key: ObjKey)        // the generic foreign key finds no row (obj is None)
    | UnregisteredModel(model: TypeId)  // KeyError from the registry lookup
    | UrlError                          // urlopen failed at the transport level and was re-raised
    | MissingHookArgument               // Message.process() called without its hook (TypeError)

  /** A subscription: "POST to url when a subject of objType has objProperty == objValue". */
  datatype Listener = Listener(objType: TypeId, objProperty: string, objValue: string, url: string, owner: ObjKey)

  /** A captured event about one subject. */
  datatype Message = Message(obj: ObjKey, payload: string, processed: bool)

  /** One (message, listener) delivery unit with its attempt state. */
  datatype MessageQueue = MessageQueue(
    message: MessageId,
    listener: ListenerId,
    processed: bool,
    attempts: nat,
    failedAt: Option<Timestamp>)

  /** The signal a webhook is connected to; post_save is the default. */
  datatype Signal = PostSave | OtherSignal(name: string)

  /** `serializer.serialize([obj], fields=fields)`: a foreign library, so any function. */
  type Serializer = (ObjKey, Props, seq<string>) -> string

  /** A webhook registration, as WebHook.__init__ stores its arguments. */
  datatype WebHook = WebHook(
    fields: seq<string>,
    signal: Signal,
    serializer: Serializer,
    retries: int,
    synchronous: bool)

  /** The network as an oracle: whether attempt number n of queue row k succeeds,
      that is, urlopen returns without raising URLError (a 2xx answer; an HTTPError
      for any other status is a URLError too). */
  type Network = (QueueId, nat) -> bool
}
