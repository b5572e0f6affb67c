/** ChatMessage: one entry of the conversation. */
module Messages {
  import opened Wrappers

  /** ChatMessage.Type: TYPING is the transient placeholder shown while a reply is awaited. */
  datatype MessageType = User | Assistant | System | Typing

  /** A conversation entry. Its kind and its timestamp are fixed when it is constructed (there
      are no setters for them); its content and its model label (null when absent) are
      replaced by setters. The timestamp is the clock reading taken by the constructor, passed
      in here. */
  class ChatMessage {
    const kind: MessageType
    const timestamp: int
    var content: string
    var model: Option<string>

    /** ChatMessage(type, content): no model label. */
    constructor (kind: MessageType, content: string, timestamp: int)
      ensures this.kind == kind && this.timestamp == timestamp
      ensures this.content == content && model == None
    {
      this.kind := kind;
      this.timestamp := timestamp;
      this.content := content;
      this.model := None;
    }

    /** ChatMessage(type, content, model): as above, and the model label is stored too. */
    constructor WithModel(kind: MessageType, content: string, model: Option<string>, timestamp: int)
      ensures this.kind == kind && this.timestamp == timestamp
      ensures this.content == content && this.model == model
    {
      this.kind := kind;
      this.timestamp := timestamp;
      this.content := content;
      this.model := model;
    }

    /** setContent: only the content changes. */
    method SetContent(content: string)
      modifies this`content
      ensures this.content == content
    {
      this.content := content;
    }

    /** setModel: only the model label changes. */
    method SetModel(model: Option<string>)
      modifies this`model
      ensures this.model == model
    {
      this.model := model;
    }
  }
}
