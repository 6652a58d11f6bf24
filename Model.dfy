/** Entities shared by the sessions pager, the search screen and the session card. */
module Model {

  datatype Option<+T> = None | Some(value: T)

  /** The throwable carried by a failed emission; only its message is kept. */
  datatype Error = Error(message: string)

  /** A tagged value emitted by a view model's observed result stream. */
  datatype Result<+T> = InProgress | Success(data: T) | Failure(e: Error)

  datatype Room = Room(id: int, name: string)

  datatype Speaker = Speaker(id: string, name: string, imageUrl: string)

  datatype Topic = Topic(id: int, name: string)

  /**
   * A speech session. Every field is fixed except the favourite flag,
   * which the search screen flips in place on the very object that the
   * list sections hold.
   */
  class SpeechSession {
    const id: string
    const title: string
    const desc: string
    const topic: Topic
    const speakers: seq<Speaker>
    var isFavorited: bool

    constructor (id: string, title: string, desc: string, topic: Topic,
                 speakers: seq<Speaker>, isFavorited: bool)
      ensures this.id == id && this.title == title && this.desc == desc
      ensures this.topic == topic && this.speakers == speakers
      ensures this.isFavorited == isFavorited
    {
      this.id := id;
      this.title := title;
      this.desc := desc;
      this.topic := topic;
      this.speakers := speakers;
      this.isFavorited := isFavorited;
    }
  }

  /** The matching sessions and speakers for one query, produced together. */
  datatype SearchResult = SearchResult(sessions: seq<SpeechSession>, speakers: seq<Speaker>)
}
