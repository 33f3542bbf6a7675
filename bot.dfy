/**
 * The bot's in-memory store `DB`, keyed by chat id, and the per-chat record the
 * handlers update field by field. Replies, menus, the browser and the file system
 * are outside the model: a render's success is a parameter, a file write does
 * nothing, and the clock is a parameter.
 */
module Bot {

  import opened Options
  import opened Labels
  import opened Records
  import opened Sessions

  /** `ctx.chat.id` */
  type UserId = int

  /** The record `DB[userId]`, updated in place by the handlers. */
  class Session {
    var realName: Option<string>
    var queue: seq<Item>
    var savedData: Option<seq<Item>>
    var currentInput: Option<Draft>
    var waitingForName: bool
    var waitingForInput: bool
    var waitingForStock: bool

    /** The record's fields as one value. */
    function View(): State
      reads this
    {
      State(realName, queue, savedData, currentInput, waitingForName, waitingForInput, waitingForStock)
    }

    ghost predicate Valid()
      reads this
    {
      Inv(View())
    }

    /** `DB[userId] = { realName: null, queue: [], savedData: null, waitingForName: true, ... }` */
    constructor ()
      ensures Valid() && View() == Initial()
    {
      realName := None;
      queue := [];
      savedData := None;
      currentInput := None;
      waitingForName := true;
      waitingForInput := false;
      waitingForStock := false;
    }

    /** `bot.action('menu_tambah')` on an existing record. */
    method AddData()
      requires Valid()
      modifies this
      ensures Valid() && View() == Sessions.AddData(old(View()))
    {
      if realName.None? || realName.value == "" {
        return;
      }
      waitingForInput := true;
    }

    /** `bot.action('menu_save')` on an existing record; `now` stands for `Date.now()`. */
    method Save(now: nat) returns (outcome: SaveOutcome)
      requires Valid()
      modifies this
      ensures Valid() && (View(), outcome) == Sessions.Save(old(View()), now)
    {
      if queue == [] {
        return EmptyQueue;
      }
      var name := realName.value;
      var fileName := ExportFileName(name, now);
      var document := Export(name, queue);
      savedData := Some(queue);
      outcome := Saved(fileName, document);
    }

    /**
     * `bot.action('menu_generate')` on an existing record; `rendered` says whether
     * the browser, the PDF file and the upload all succeeded.
     */
    method Generate(rendered: bool, now: nat) returns (outcome: GenerateOutcome)
      requires Valid()
      modifies this
      ensures Valid() && (View(), outcome) == Sessions.Generate(old(View()), rendered, now)
    {
      if savedData.None? {
        return MissingSnapshot;
      }
      if !rendered || !Expandable(savedData.value) {
        return RenderFailed;
      }
      var labels := Expand(savedData.value);
      var pages := Layout(labels);
      var fileName := DocumentFileName(realName, now);
      queue := [];
      savedData := None;
      outcome := Rendered(pages, fileName);
    }

    /** `bot.on('text')` on an existing record. */
    method Text(text: string)
      requires Valid()
      modifies this
      ensures Valid() && View() == Sessions.Text(old(View()), text)
    {
      if IsCommand(text) {
        return;
      }
      if waitingForName {
        realName := Some(text);
        waitingForName := false;
        return;
      }
      if waitingForStock {
        var stock := ParseStock(text);
        var pending := currentInput.value;
        queue := queue + [Item(pending.name, pending.description, pending.price, stock)];
        waitingForStock := false;
        return;
      }
      if waitingForInput {
        var parsed := ParseRecord(text);
        if parsed.None? {
          return;
        }
        currentInput := parsed;
        waitingForInput := false;
        waitingForStock := true;
      }
    }
  }

  /** `DB`: at most one record per chat; no two chats share a record. */
  class Registry {
    var sessions: map<UserId, Session>

    ghost predicate Valid()
      reads this, sessions.Values
    {
      && (forall u, v :: u in sessions && v in sessions && u != v ==> sessions[u] != sessions[v])
      && (forall u :: u in sessions ==> sessions[u].Valid())
    }

    /** `const DB = {}` */
    constructor ()
      ensures Valid() && sessions == map[]
    {
      sessions := map[];
    }

    /** The record a handler for `user` may change: that chat's own, if it has one. */
    function Own(user: UserId): set<Session>
      reads this
    {
      if user in sessions then {sessions[user]} else {}
    }

    /** `bot.start`: a new record replaces whatever the chat had; other chats keep theirs. */
    method Start(user: UserId)
      requires Valid()
      modifies this
      ensures Valid()
      ensures sessions.Keys == old(sessions.Keys) + {user}
      ensures fresh(sessions[user]) && sessions[user].View() == Initial()
      ensures forall v :: v in old(sessions) && v != user ==>
        sessions[v] == old(sessions[v]) && sessions[v].View() == old(sessions[v].View())
    {
      var session := new Session();
      sessions := sessions[user := session];
    }

    /** `menu_tambah`: nothing happens for a chat without a record. */
    method AddData(user: UserId)
      requires Valid()
      modifies Own(user)
      ensures Valid() && sessions == old(sessions)
      ensures user in sessions ==> sessions[user].View() == Sessions.AddData(old(sessions[user].View()))
      ensures forall v :: v in sessions && v != user ==> sessions[v].View() == old(sessions[v].View())
    {
      if user in sessions {
        sessions[user].AddData();
      }
    }

    /** `menu_save`: a chat without a record is refused like an empty queue. */
    method Save(user: UserId, now: nat) returns (outcome: SaveOutcome)
      requires Valid()
      modifies Own(user)
      ensures Valid() && sessions == old(sessions)
      ensures user !in sessions ==> outcome == EmptyQueue
      ensures user in sessions ==>
        (sessions[user].View(), outcome) == Sessions.Save(old(sessions[user].View()), now)
      ensures forall v :: v in sessions && v != user ==> sessions[v].View() == old(sessions[v].View())
    {
      if user in sessions {
        outcome := sessions[user].Save(now);
      } else {
        outcome := EmptyQueue;
      }
    }

    /** `menu_generate`: a chat without a record is refused like one without saved data. */
    method Generate(user: UserId, rendered: bool, now: nat) returns (outcome: GenerateOutcome)
      requires Valid()
      modifies Own(user)
      ensures Valid() && sessions == old(sessions)
      ensures user !in sessions ==> outcome == MissingSnapshot
      ensures user in sessions ==>
        (sessions[user].View(), outcome) == Sessions.Generate(old(sessions[user].View()), rendered, now)
      ensures forall v :: v in sessions && v != user ==> sessions[v].View() == old(sessions[v].View())
    {
      if user in sessions {
        outcome := sessions[user].Generate(rendered, now);
      } else {
        outcome := MissingSnapshot;
      }
    }

    /** `bot.on('text')`: ignored for a chat without a record. */
    method Text(user: UserId, text: string)
      requires Valid()
      modifies Own(user)
      ensures Valid() && sessions == old(sessions)
      ensures user in sessions ==> sessions[user].View() == Sessions.Text(old(sessions[user].View()), text)
      ensures forall v :: v in sessions && v != user ==> sessions[v].View() == old(sessions[v].View())
    {
      if user in sessions {
        sessions[user].Text(text);
      }
    }
  }

}
