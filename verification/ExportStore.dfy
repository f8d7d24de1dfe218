/**
 The exports table (class Store of src/nbdmux/server.py). Each writing method of
 the source is one SQL statement under the write lock; the functions below say
 what the statement does to the table, and the class performs it.

 Timestamps and the always-empty `bytes_total` column are left out.
 */
module ExportStore {
  import opened Wrappers

  datatype Status = Queued | Fetching | Decompressing | Ready | Failed {
    /** Between pickup and the final write of a warm. */
    predicate InFlight() { Fetching? || Decompressing? }
  }

  datatype Row = Row(
    file: string, readonly: bool, status: Status, srcUrl: Option<string>, format: Option<string>,
    bytesDone: nat, error: Option<string>, nbdPort: Option<int>, netbootRef: Option<string>)

  type Rows = map<string, Row>

  /** `INSERT ... ON CONFLICT(name) DO UPDATE`: every listed column is replaced,
      `bytes_done` and `error` are reset, `nbd_port` is not listed and stays. */
  function Upsert(rows: Rows, name: string, file: string, readonly: bool, status: Status,
                  srcUrl: Option<string>, format: Option<string>, netbootRef: Option<string>): Rows {
    var port := if name in rows then rows[name].nbdPort else None;
    rows[name := Row(file, readonly, status, srcUrl, format, 0, None, port, netbootRef)]
  }

  /** `UPDATE ... WHERE name=?`: keyed on the name only, no effect without a
      row; an absent `error` or `bytes_done` leaves the column as it is. */
  function SetStatus(rows: Rows, name: string, status: Status, error: Option<string>, bytesDone: Option<nat>): Rows {
    if name !in rows then rows
    else
      var r := rows[name];
      rows[name := r.(status := status,
                      error := if error.Some? then error else r.error,
                      bytesDone := if bytesDone.Some? then bytesDone.value else r.bytesDone)]
  }

  function SetNbdPort(rows: Rows, name: string, port: Option<int>): Rows {
    if name in rows then rows[name := rows[name].(nbdPort := port)] else rows
  }

  function ReadyNames(rows: Rows): set<string> { set n | n in rows && rows[n].status.Ready? }

  function PendingNames(rows: Rows): set<string> {
    set n | n in rows && (rows[n].status.Queued? || rows[n].status.InFlight())
  }

  function InFlightNames(rows: Rows): set<string> { set n | n in rows && rows[n].status.InFlight() }

  /** Several port writes at once, for distinct names. */
  function WritePorts(rows: Rows, writes: map<string, Option<int>>): Rows {
    map n | n in rows :: if n in writes then rows[n].(nbdPort := writes[n]) else rows[n]
  }

  lemma WritePortsCompose(rows: Rows, first: map<string, Option<int>>, second: map<string, Option<int>>)
    ensures WritePorts(WritePorts(rows, first), second) == WritePorts(rows, first + second)
    ensures WritePorts(rows, map[]) == rows
    ensures forall n, p :: SetNbdPort(rows, n, p) == WritePorts(rows, map[n := p])
  {
  }

  /** Registering a name again starts from scratch: nothing of the old row
      survives but the port, whatever the tables were; the columns of the request
      are as requested, and every other row stays. */
  lemma UpsertForgetsAllButThePort(rows: Rows, rows': Rows, name: string, file: string, readonly: bool, status: Status,
                                   srcUrl: Option<string>, format: Option<string>, netbootRef: Option<string>)
    ensures var r := Upsert(rows, name, file, readonly, status, srcUrl, format, netbootRef)[name];
            var r' := Upsert(rows', name, file, readonly, status, srcUrl, format, netbootRef)[name];
            && r' == r.(nbdPort := r'.nbdPort)
            && r.bytesDone == 0 && r.error == None && r.status == status
            && r.file == file && r.readonly == readonly
            && r.srcUrl == srcUrl && r.format == format && r.netbootRef == netbootRef
            && r.nbdPort == (if name in rows then rows[name].nbdPort else None)
    ensures var t := Upsert(rows, name, file, readonly, status, srcUrl, format, netbootRef);
            t.Keys == rows.Keys + {name} && forall m :: m in rows && m != name ==> t[m] == rows[m]
  {
  }

  /** What a status write does to the table, column by column: the row gets the
      status, and the error and the size only if the write has them; an absent one
      leaves the column as it was, and so does everything else. */
  lemma StatusWriteColumns(rows: Rows, name: string, status: Status, error: Option<string>, done: Option<nat>)
    ensures var rows' := SetStatus(rows, name, status, error, done);
            && rows'.Keys == rows.Keys
            && (forall m :: m in rows && m != name ==> rows'[m] == rows[m])
            && (name in rows ==>
                  && rows'[name].status == status
                  && rows'[name].error == (if error.Some? then error else rows[name].error)
                  && rows'[name].bytesDone == (if done.Some? then done.value else rows[name].bytesDone)
                  && rows'[name].file == rows[name].file && rows'[name].readonly == rows[name].readonly
                  && rows'[name].srcUrl == rows[name].srcUrl && rows'[name].format == rows[name].format
                  && rows'[name].netbootRef == rows[name].netbootRef && rows'[name].nbdPort == rows[name].nbdPort)
  {
  }

  /** Status writes for different names do not interfere. */
  lemma StatusWritesCommute(rows: Rows, m: string, n: string, a: Status, b: Status,
                            error: Option<string>, error': Option<string>, done: Option<nat>, done': Option<nat>)
    requires m != n
    ensures SetStatus(SetStatus(rows, m, a, error, done), n, b, error', done')
         == SetStatus(SetStatus(rows, n, b, error', done'), m, a, error, done)
  {
    if m in rows && n in rows {
      var r, r' := SetStatus(rows, m, a, error, done)[m], SetStatus(rows, n, b, error', done')[n];
      assert rows[m := r][n := r'] == rows[n := r'][m := r];
    }
  }

  /** `names` lists the set `s`, each member once. */
  ghost predicate Lists(names: seq<string>, s: set<string>) {
    && (forall n :: n in names <==> n in s)
    && forall i, j :: 0 <= i < j < |names| ==> names[i] != names[j]
  }

  class Store {
    var rows: Rows

    constructor ()
      ensures rows == map[]
    {
      rows := map[];
    }

    method UpsertExport(name: string, file: string, readonly: bool, status: Status, srcUrl: Option<string>,
                        format: Option<string>, netbootRef: Option<string>)
      modifies this
      ensures rows == Upsert(old(rows), name, file, readonly, status, srcUrl, format, netbootRef)
    {
      var record := Row(file, readonly, status, srcUrl, format, 0, None, None, netbootRef);
      if name in rows {
        record := record.(nbdPort := rows[name].nbdPort);
      }
      rows := rows[name := record];
    }

    method UpdateStatus(name: string, status: Status, error: Option<string> := None, bytesDone: Option<nat> := None)
      modifies this
      ensures rows == SetStatus(old(rows), name, status, error, bytesDone)
    {
      if name in rows {
        var r := rows[name].(status := status);
        if error.Some? {
          r := r.(error := error);
        }
        if bytesDone.Some? {
          r := r.(bytesDone := bytesDone.value);
        }
        rows := rows[name := r];
      }
    }

    method UpdateNbdPort(name: string, port: Option<int>)
      modifies this
      ensures rows == SetNbdPort(old(rows), name, port)
    {
      if name in rows {
        rows := rows[name := rows[name].(nbdPort := port)];
      }
    }

    method GetExport(name: string) returns (row: Option<Row>)
      ensures row == if name in rows then Some(rows[name]) else None
    {
      row := if name in rows then Some(rows[name]) else None;
    }

    method DeleteExport(name: string) returns (existed: bool)
      modifies this
      ensures rows == old(rows) - {name} && existed == (name in old(rows))
    {
      existed := name in rows;
      rows := rows - {name};
    }

    method ListReadyExports() returns (names: seq<string>)
      ensures Lists(names, ReadyNames(rows))
    {
      names := Enumerate(ReadyNames(rows));
    }

    method ListPendingExports() returns (names: seq<string>)
      ensures Lists(names, PendingNames(rows))
    {
      names := Enumerate(PendingNames(rows));
    }
  }

  /** The rows in some order; nothing depends on `ORDER BY name`. */
  method Enumerate(s: set<string>) returns (names: seq<string>)
    ensures Lists(names, s)
  {
    names := [];
    var todo := s;
    while todo != {}
      invariant todo <= s
      invariant Lists(names, s - todo)
      decreases todo
    {
      var n :| n in todo;
      names := names + [n];
      todo := todo - {n};
    }
  }
}
