/** The lists of callbacks and origins of a client, kept as comma-separated text. */
module ClientLists {
  import opened Wrappers
  import opened Text

  function TrimAll(parts: seq<string>): (items: seq<string>)
    ensures |items| == |parts|
    ensures forall i :: 0 <= i < |parts| ==> items[i] == Trim(parts[i])
  {
    if parts == [] then [] else [Trim(parts[0])] + TrimAll(parts[1..])
  }

  function Read(text: string): seq<string> {
    if text == "" then [] else TrimAll(Split(text))
  }

  function Write(items: seq<string>): string {
    Join(items)
  }

  predicate Item(s: string) {
    CommaFree(s) && Trimmed(s)
  }

  lemma ReadGivesItems(text: string)
    ensures forall i :: 0 <= i < |Read(text)| ==> Item(Read(text)[i])
    ensures Read(text) == [] <==> text == ""
  {
    if text != "" {
      SplitParts(text);
      forall i | 0 <= i < |Read(text)|
        ensures Item(Read(text)[i])
      {
        TrimProperties(Split(text)[i]);
      }
    }
  }

  /** Writing a list and reading it back gives the same list exactly for the empty list and for lists of
      trimmed items without commas other than the one whose only item is empty. */
  lemma WriteReadIff(items: seq<string>)
    ensures Read(Write(items)) == items <==>
              items == [] || (items != [""] && forall i :: 0 <= i < |items| ==> Item(items[i]))
  {
    var text := Write(items);
    ReadGivesItems(text);
    if items != [] && items != [""] && forall i :: 0 <= i < |items| ==> Item(items[i]) {
      SplitJoin(items);
      assert text != "" by {
        JoinEmpty(items);
      }
      forall i | 0 <= i < |items|
        ensures Read(text)[i] == items[i]
      {
        TrimProperties(items[i]);
      }
    }
  }

  lemma JoinEmpty(items: seq<string>)
    ensures Join(items) == "" <==> items == [] || items == [""]
  {
    if |items| > 1 {
      assert ',' in Join(items);
    }
  }

  /** Writing back what was read, and reading again, changes nothing exactly when the stored text was
      empty or not blank. */
  lemma ReadWriteReadIff(text: string)
    ensures Read(Write(Read(text))) == Read(text) <==> text == "" || !Blank(text)
  {
    var items := Read(text);
    ReadGivesItems(text);
    WriteReadIff(items);
    SplitParts(text);
    TrimProperties(text);
    if text != "" {
      if items == [""] {
        assert |Split(text)| == 1;
      }
      if Blank(text) {
        assert CommaFree(text);
        assert items == [Trim(text)];
      }
    }
  }

  // ----- the clients table -----

  datatype Row = Row(name: Option<string>, appType: Option<string>, callbacks: Option<string>, origins: Option<string>)

  datatype Client = Client(id: string, name: string, appType: string, callbacks: seq<string>, origins: seq<string>)

  /** The value an update gives for a list: none, a list of items, or the text itself. */
  datatype ListValue = Absent | Items(items: seq<string>) | Plain(text: string)

  datatype Assignment = SetName(s: string) | SetCallbacks(s: string) | SetOrigins(s: string)

  function OrEmpty(s: Option<string>): string {
    if s == None then "" else s.value
  }

  function View(id: string, row: Row): Client {
    Client(id, OrEmpty(row.name), OrEmpty(row.appType), Read(OrEmpty(row.callbacks)), Read(OrEmpty(row.origins)))
  }

  function Assign(row: Row, a: Assignment): Row {
    match a
    case SetName(s) => row.(name := Some(s))
    case SetCallbacks(s) => row.(callbacks := Some(s))
    case SetOrigins(s) => row.(origins := Some(s))
  }

  function AssignAll(row: Row, sets: seq<Assignment>): Row {
    if sets == [] then row else Assign(AssignAll(row, sets[..|sets| - 1]), sets[|sets| - 1])
  }

  lemma AssignLast(row: Row, sets: seq<Assignment>, a: Assignment)
    ensures AssignAll(row, sets + [a]) == Assign(AssignAll(row, sets), a)
  {
    assert (sets + [a])[..|sets|] == sets;
  }

  function Stored(value: ListValue, was: Option<string>): Option<string> {
    match value
    case Absent => was
    case Items(items) => Some(Write(items))
    case Plain(text) => Some(text)
  }

  function Updated(row: Row, name: Option<string>, callbacks: ListValue, origins: ListValue): Row {
    var newName := if name == None then row.name else name;
    Row(newName, row.appType, Stored(callbacks, row.callbacks), Stored(origins, row.origins))
  }

  /** A client that is updated with lists of proper items is read back with those very lists. */
  lemma UpdateThenGet(id: string, row: Row, name: Option<string>, callbacks: seq<string>, origins: ListValue)
    requires forall i :: 0 <= i < |callbacks| ==> Item(callbacks[i])
    ensures View(id, Updated(row, name, Items(callbacks), origins)).callbacks ==
              if callbacks == [""] then [] else callbacks
    ensures origins == Absent ==>
              View(id, Updated(row, name, Items(callbacks), origins)).origins == View(id, row).origins
  {
    WriteReadIff(callbacks);
  }

  class Clients {
    var rows: map<string, Row>

    constructor ()
      ensures rows == map[]
    {
      rows := map[];
    }

    /** Splits the text and trims the parts in place. */
    static method ReadList(text: Option<string>) returns (items: seq<string>)
      ensures items == Read(OrEmpty(text))
    {
      if text == None || text.value == "" {
        return [];
      }
      var parts := Split(text.value);
      var a := new string[|parts|](i requires 0 <= i < |parts| => parts[i]);
      for i := 0 to a.Length
        invariant forall j :: 0 <= j < i ==> a[j] == Trim(parts[j])
        invariant forall j :: i <= j < a.Length ==> a[j] == parts[j]
      {
        a[i] := Trim(a[i]);
      }
      items := a[..];
    }

    method GetClientByID(id: string) returns (client: Option<Client>)
      ensures client == if id in rows then Some(View(id, rows[id])) else None
    {
      if id !in rows {
        return None;
      }
      var row := rows[id];
      var callbacks := ReadList(row.callbacks);
      var origins := ReadList(row.origins);
      client := Some(Client(id, OrEmpty(row.name), OrEmpty(row.appType), callbacks, origins));
    }

    ghost predicate DistinctIds(out: seq<Client>) {
      forall i, j :: 0 <= i < j < |out| ==> out[i].id != out[j].id
    }

    lemma DistinctSnoc(out: seq<Client>, c: Client)
      requires DistinctIds(out) && forall d :: d in out ==> d.id != c.id
      ensures DistinctIds(out + [c])
    {
      assert forall i :: 0 <= i < |out| ==> out[i] in out;
    }

    method ListClients() returns (out: seq<Client>)
      ensures |out| == |rows|
      ensures DistinctIds(out)
      ensures forall c :: c in out <==> c.id in rows && c == View(c.id, rows[c.id])
    {
      out := [];
      var todo := rows.Keys;
      while todo != {}
        invariant todo <= rows.Keys && |out| + |todo| == |rows.Keys|
        invariant forall c :: c in out <==> c.id in rows && c.id !in todo && c == View(c.id, rows[c.id])
        invariant DistinctIds(out)
        decreases |todo|
      {
        var id :| id in todo;
        var callbacks := ReadList(rows[id].callbacks);
        var origins := ReadList(rows[id].origins);
        var client := Client(id, OrEmpty(rows[id].name), OrEmpty(rows[id].appType), callbacks, origins);
        DistinctSnoc(out, client);
        out := out + [client];
        todo := todo - {id};
      }
    }

    /** Appends an assignment if there is one. */
    static method AddTo(ghost row: Row, sets: seq<Assignment>, a: Option<Assignment>) returns (more: seq<Assignment>)
      ensures AssignAll(row, more) == if a == None then AssignAll(row, sets) else Assign(AssignAll(row, sets), a.value)
      ensures more == [] <==> sets == [] && a == None
    {
      more := sets;
      if a.Some? {
        AssignLast(row, sets, a.value);
        more := sets + [a.value];
      }
    }

    /** The assignments in the order in which the update builds them. */
    static method Assignments(ghost row: Row, name: Option<string>, callbacks: ListValue, origins: ListValue)
      returns (sets: seq<Assignment>)
      ensures AssignAll(row, sets) == Updated(row, name, callbacks, origins)
      ensures sets == [] <==> name == None && callbacks == Absent && origins == Absent
    {
      sets := AddTo(row, [], if name.Some? then Some(SetName(name.value)) else None);
      sets := AddTo(row, sets, if callbacks.Items? then Some(SetCallbacks(Write(callbacks.items))) else None);
      sets := AddTo(row, sets, if origins.Items? then Some(SetOrigins(Write(origins.items))) else None);
      sets := AddTo(row, sets, if callbacks.Plain? then Some(SetCallbacks(callbacks.text)) else None);
      sets := AddTo(row, sets, if origins.Plain? then Some(SetOrigins(origins.text)) else None);
    }

    /** Runs the assignments as one statement; without any, none runs. */
    method UpdateClient(id: string, name: Option<string>, callbacks: ListValue, origins: ListValue)
      modifies this
      ensures rows ==
              if id in old(rows) then old(rows)[id := Updated(old(rows)[id], name, callbacks, origins)] else old(rows)
    {
      var sets := Assignments(if id in rows then rows[id] else Row(None, None, None, None), name, callbacks, origins);
      if sets == [] {
        return;
      }
      if id in rows {
        rows := rows[id := AssignAll(rows[id], sets)];
      }
    }
  }
}
