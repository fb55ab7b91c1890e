// The database client as the services use it: one object holding the Line,
// Conversation and Message tables, whose calls update the tables in place.
// Each call is proved to do exactly what the corresponding operation of
// Schema does to the tables, so that the services' writers can be specified
// by composing those operations.
module Database {
  import opened Wrappers
  import opened Schema

  class Store {
    var lines: seq<Line>
    var conversations: seq<Conversation>
    var messages: seq<Message>
    var nextId: nat

    /** The current contents of the three tables. */
    function Tables(): Tables
      reads this
    {
      Schema.Tables(lines, conversations, messages, nextId)
    }

    ghost predicate Valid()
      reads this
    {
      ValidTables(Tables())
    }

    constructor()
      ensures Tables() == EmptyTables
      ensures Valid()
    {
      lines, conversations, messages, nextId := [], [], [], 0;
      EmptyTablesValid();
    }

    method Assign(t: Tables)
      modifies this
      ensures Tables() == t
    {
      lines, conversations, messages, nextId := t.lines, t.conversations, t.messages, t.nextId;
    }

    /** `line.findUnique({ where: { instanceName } })`. */
    method FindLine(instanceName: string) returns (r: Option<Line>)
      ensures r == LineNamed(lines, instanceName)
      ensures r.Some? ==> r.value in lines && r.value.instanceName == instanceName
    {
      r := LineNamed(lines, instanceName);
    }

    /** `message.findUnique({ where: { evolutionId } })`. */
    method FindMessage(evolutionId: string) returns (r: Option<Message>)
      ensures r == MessageWithEvolutionId(messages, evolutionId)
      ensures r.None? <==> !HasMessage(Tables(), evolutionId)
    {
      r := MessageWithEvolutionId(messages, evolutionId);
    }

    /** `conversation.upsert` on (lineId, remoteJid). */
    method UpsertConversation(lineId: nat, remoteJid: string, rename: Option<string>,
                              createName: Option<string>, now: int) returns (r: Result<Conversation, DbError>)
      modifies this
      ensures var w := Schema.UpsertConversation(old(Tables()), lineId, remoteJid, rename, createName, now);
        Tables() == w.tables && r == w.result
      ensures old(Valid()) ==> Valid()
    {
      var w := Schema.UpsertConversation(Tables(), lineId, remoteJid, rename, createName, now);
      Assign(w.tables);
      r := w.result;
    }

    /** `message.create`. */
    method CreateMessage(d: MessageDraft) returns (r: Result<Message, DbError>)
      modifies this
      ensures var w := Schema.CreateMessage(old(Tables()), d);
        Tables() == w.tables && r == w.result
      ensures old(Valid()) ==> Valid()
    {
      var w := Schema.CreateMessage(Tables(), d);
      Assign(w.tables);
      r := w.result;
    }

    /** `line.create`. */
    method CreateLine(instanceName: string, instanceId: string, operatorId: string, now: int) returns (r: Result<Line, DbError>)
      modifies this
      ensures var w := Schema.CreateLine(old(Tables()), instanceName, instanceId, operatorId, now);
        Tables() == w.tables && r == w.result
      ensures old(Valid()) ==> Valid()
    {
      var w := Schema.CreateLine(Tables(), instanceName, instanceId, operatorId, now);
      Assign(w.tables);
      r := w.result;
    }

    /** `line.updateMany({ where: { instanceName }, data })`. */
    method SetLineState(instanceName: string, status: LineStatus, phone: Option<string>)
      modifies this
      ensures Tables() == Schema.SetLineState(old(Tables()), instanceName, status, phone)
      ensures old(Valid()) ==> Valid()
    {
      Assign(Schema.SetLineState(Tables(), instanceName, status, phone));
    }
  }
}
