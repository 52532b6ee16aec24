/** The conversation history store: a JSON file holding a list of
    `{role, content}` turns, read as a bounded window and appended to in pairs. */
module Database {

  /** Who spoke a turn. */
  datatype Role = System | User | Assistant

  /** One `{role, content}` entry of a conversation. */
  datatype Turn = Turn(role: Role, content: string)

  /** What reading `stored_data.json` finds: no file, a file that does not parse
      as JSON, a file whose read raises some other error, or a list of turns. */
  datatype StoredFile = Absent | Corrupt | Unreadable | Valid(log: seq<Turn>)

  /** How many stored turns the window carries at most. */
  const MaxRecent: nat := 5

  const Persona := "You are a sales person selling cars and houses  . Ask relevant Q , user is Noufal. Keep your answer under 25 words with simple language to understand."
  const HumourSuffix := " Your response will include some  humour."
  const QuestionSuffix := " Your response will include a rather user freandly qustion."

  function Min(a: int, b: int): int {
    if a < b then a else b
  }

  /** The system instruction for one request. `draw` is what `random.randint(0, 1)`
      returned; the source's test `x < 0.5` holds of it exactly when it is 0. */
  function SystemInstruction(draw: int): (t: Turn)
    requires 0 <= draw <= 1
    ensures t.role == System
    ensures t.content == Persona + HumourSuffix <==> draw == 0
    ensures t.content == Persona + QuestionSuffix <==> draw == 1
  {
    assert |HumourSuffix| != |QuestionSuffix|;
    Turn(System, Persona + if draw == 0 then HumourSuffix else QuestionSuffix)
  }

  /** The stored turns the window copies: the last `MaxRecent` of a list that
      parses, in their order, and none otherwise. */
  function Recent(file: StoredFile): (r: seq<Turn>)
  {
    if !file.Valid? then []
    else if |file.log| < MaxRecent then file.log
    else file.log[|file.log| - MaxRecent..]
  }

  /** The messages `get_recent_messages` returns: the instruction first, then at
      most the last five stored turns in their original order. */
  function Window(system: Turn, file: StoredFile): (w: seq<Turn>)
    ensures |w| >= 1 && w[0] == system
    ensures !file.Valid? ==> w == [system]
    ensures file.Valid? ==> |w| == 1 + Min(|file.log|, MaxRecent)
    ensures file.Valid? ==> w[1..] == file.log[|file.log| - (|w| - 1)..]
  {
    [system] + Recent(file)
  }

  /** The list `store_messages` starts from: the stored one, or an empty one when
      the file is absent or does not parse. */
  function Existing(file: StoredFile): seq<Turn> {
    if file.Valid? then file.log else []
  }

  /** The user turn and the assistant turn one exchange adds, in that order. */
  function Pair(request: string, response: string): seq<Turn> {
    [Turn(User, request), Turn(Assistant, response)]
  }

  /** Whether `store_messages` raises: a read error other than a parse error, or a failed write. */
  predicate StoreRaises(file: StoredFile, writable: bool) {
    file.Unreadable? || !writable
  }

  /** The file after `store_messages`: the pair appended when nothing raised. */
  function AfterStore(file: StoredFile, request: string, response: string, writable: bool): StoredFile {
    if StoreRaises(file, writable) then file else Valid(Existing(file) + Pair(request, response))
  }

  /** `stored_data.json` under one path, updated in place by the operations below. */
  class HistoryFile {
    var stored: StoredFile

    /** `get_recent_messages`: never raises; an absent, corrupt or unreadable file
        gives the instruction alone. */
    method RecentMessages(draw: int) returns (messages: seq<Turn>)
      requires 0 <= draw <= 1
      ensures messages == Window(SystemInstruction(draw), stored)
    {
      var instruction := Turn(System, Persona);
      if draw == 0 {
        instruction := instruction.(content := instruction.content + HumourSuffix);
      } else {
        instruction := instruction.(content := instruction.content + QuestionSuffix);
      }
      messages := [instruction];
      match stored
      case Valid(data) =>
        if |data| > 0 {
          if |data| < MaxRecent {
            for i := 0 to |data|
              invariant messages == [instruction] + data[..i]
            {
              messages := messages + [data[i]];
            }
            assert data[..|data|] == data;
          } else {
            var last := data[|data| - MaxRecent..];
            for i := 0 to |last|
              invariant messages == [instruction] + last[..i]
            {
              messages := messages + [last[i]];
            }
            assert last[..|last|] == last;
          }
        }
      case _ =>
    }

    /** `store_messages`: a read-append-write that adds one user turn and then one
        assistant turn; a read error other than a parse error, or a failed write,
        is raised to the caller and leaves the file as it was. */
    method StoreMessages(request: string, response: string, writable: bool) returns (raised: bool)
      modifies this
      ensures raised == StoreRaises(old(stored), writable)
      ensures stored == AfterStore(old(stored), request, response, writable)
    {
      var existing: seq<Turn> := [];
      match stored {
        case Absent =>
        case Corrupt =>
          existing := [];
        case Unreadable =>
          return true;
        case Valid(data) =>
          existing := data;
      }
      existing := existing + [Turn(User, request)];
      existing := existing + [Turn(Assistant, response)];
      if !writable {
        return true;
      }
      stored := Valid(existing);
      raised := false;
    }

    /** `reset_messages`: overwrites the file with an empty list; a failed write is
        raised and leaves the file as it was. */
    method ResetMessages(writable: bool) returns (raised: bool)
      modifies this
      ensures raised == !writable
      ensures stored == if writable then Valid([]) else old(stored)
    {
      if !writable {
        return true;
      }
      stored := Valid([]);
      raised := false;
    }
  }

  /** A successful store keeps every earlier turn where it was and adds exactly
      the user turn and then the assistant turn; an absent or corrupt file is
      replaced by that pair alone. */
  lemma StoreAppendsPair(file: StoredFile, request: string, response: string)
    requires !StoreRaises(file, true)
    ensures var log := AfterStore(file, request, response, true).log;
      |log| == |Existing(file)| + 2 &&
      log[..|Existing(file)|] == Existing(file) &&
      log[|log| - 2] == Turn(User, request) && log[|log| - 1] == Turn(Assistant, response)
    ensures !file.Valid? ==> AfterStore(file, request, response, true) == Valid(Pair(request, response))
  {
    var log := AfterStore(file, request, response, true).log;
    assert log[..|Existing(file)|] == Existing(file);
  }

  /** The window of the next request ends with the exchange just stored. */
  lemma {:induction false} WindowAfterStore(system: Turn, file: StoredFile, request: string, response: string)
    requires !StoreRaises(file, true)
    ensures var w := Window(system, AfterStore(file, request, response, true));
      |w| == 1 + Min(|Existing(file)| + 2, MaxRecent) &&
      w[|w| - 2..] == Pair(request, response)
  {
    var log := Existing(file) + Pair(request, response);
    var w := Window(system, AfterStore(file, request, response, true));
    assert w[|w| - 2..] == log[|log| - 2..];
  }

  /** After a reset the window holds the instruction alone. */
  lemma WindowAfterReset(system: Turn)
    ensures Window(system, Valid([])) == [system]
  {
  }

  /** The shape the design expects of a stored log: user and assistant turns
      alternating, starting with a user turn and ending with an assistant turn. */
  predicate Alternating(log: seq<Turn>) {
    |log| % 2 == 0 &&
    forall i :: 0 <= i < |log| ==> log[i].role == (if i % 2 == 0 then User else Assistant)
  }

  /** Storing a pair keeps the log alternating (an absent or corrupt file starts over). */
  lemma StorePreservesAlternating(file: StoredFile, request: string, response: string)
    requires file.Valid? ==> Alternating(file.log)
    requires !StoreRaises(file, true)
    ensures Alternating(AfterStore(file, request, response, true).log)
  {
  }

  /** The turns a sequence of exchanges contributes, in order. */
  function Flatten(exchanges: seq<(string, string)>): (log: seq<Turn>)
    ensures |log| == 2 * |exchanges|
  {
    if exchanges == [] then [] else Flatten(exchanges[..|exchanges| - 1]) + Pair(exchanges[|exchanges| - 1].0, exchanges[|exchanges| - 1].1)
  }

  /** The file after a run of successful stores, one per exchange. */
  function StoreAll(file: StoredFile, exchanges: seq<(string, string)>): StoredFile {
    if exchanges == [] then file
    else AfterStore(StoreAll(file, exchanges[..|exchanges| - 1]), exchanges[|exchanges| - 1].0, exchanges[|exchanges| - 1].1, true)
  }

  /** After a reset, N successful stores leave exactly the 2N turns of those
      exchanges, user before assistant, in the order they happened. */
  lemma {:induction false} StoresAfterReset(exchanges: seq<(string, string)>)
    ensures StoreAll(Valid([]), exchanges) == Valid(Flatten(exchanges))
    ensures |StoreAll(Valid([]), exchanges).log| == 2 * |exchanges|
  {
    if exchanges != [] {
      StoresAfterReset(exchanges[..|exchanges| - 1]);
    }
  }
}
