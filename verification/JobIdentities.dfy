/** The durable identity of a job, and the keys the source makes of it. */
module JobIdentities {
  import J = JsonText

  type Text = J.Text

  datatype Identity = Identity(connection: Text, queue: Text, name: Text, version: int)

  /** `JSON.stringify([connection, queue, name, version])`. */
  function Key(i: Identity): Text {
    J.TupleText([J.Str(i.connection), J.Str(i.queue), J.Str(i.name), J.Int(i.version)])
  }

  /** The key of a flow child among its siblings: everything but the queue. */
  function NameKey(i: Identity): Text {
    J.TupleText([J.Str(i.connection), J.Str(i.name), J.Int(i.version)])
  }

  function QueueKey(connection: Text, name: Text): Text {
    J.TupleText([J.Str(connection), J.Str(name)])
  }

  /** Two jobs have the same key exactly when they have the same identity. */
  lemma KeysTellIdentitiesApart(a: Identity, b: Identity)
    ensures Key(a) == Key(b) <==> a == b
  {
    var x, y := [J.Str(a.connection), J.Str(a.queue), J.Str(a.name), J.Int(a.version)],
                [J.Str(b.connection), J.Str(b.queue), J.Str(b.name), J.Int(b.version)];
    J.TupleTextIsInjective(x, y);
    if x == y { assert x[0] == y[0] && x[1] == y[1] && x[2] == y[2] && x[3] == y[3]; }
  }

  lemma NameKeysTellApart(a: Identity, b: Identity)
    ensures NameKey(a) == NameKey(b) <==> a.connection == b.connection && a.name == b.name && a.version == b.version
  {
    var x, y := [J.Str(a.connection), J.Str(a.name), J.Int(a.version)],
                [J.Str(b.connection), J.Str(b.name), J.Int(b.version)];
    J.TupleTextIsInjective(x, y);
    if x == y { assert x[0] == y[0] && x[1] == y[1] && x[2] == y[2]; }
  }

  lemma QueueKeysTellApart(connection: Text, name: Text, connection': Text, name': Text)
    ensures QueueKey(connection, name) == QueueKey(connection', name') <==> connection == connection' && name == name'
  {
    var x, y := [J.Str(connection), J.Str(name)], [J.Str(connection'), J.Str(name')];
    J.TupleTextIsInjective(x, y);
    if x == y { assert x[0] == y[0] && x[1] == y[1]; }
  }
}
