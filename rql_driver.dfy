/** The RQL driver of rql/driver.go: it parses a request, runs its statements
    in order against a DB and writes one response chunk per handled statement
    to an output stream. */
module RqlDriver {
  import opened MachineInts
  import opened RqlAst
  import opened RqlSpec

  /** A DB offering the two methods the driver needs. Its contents are a map
      from key to value; `calls` records every call made on it, in order. */
  class MapDb {
    var entries: map<string, string>
    ghost var calls: seq<DbCall>

    constructor ()
      ensures entries == map[] && calls == []
    {
      entries := map[];
      calls := [];
    }

    /** Store `val` under `key`; what the store does with `expireIn` is not
        part of this model. */
    method Set(key: string, val: string, expireIn: Int64)
      modifies this
      ensures entries == old(entries)[key := val]
      ensures calls == old(calls) + [SetCall(key, val, expireIn)]
    {
      entries := entries[key := val];
      calls := calls + [SetCall(key, val, expireIn)];
    }

    /** Look `key` up: `ok` tells whether it was found. */
    method Get(key: string) returns (val: string, ok: bool)
      modifies this`calls
      ensures ok <==> key in entries
      ensures ok ==> val == entries[key]
      ensures calls == old(calls) + [GetCall(key)]
    {
      ok := key in entries;
      val := if ok then entries[key] else "";
      calls := calls + [GetCall(key)];
    }
  }

  /** The output stream: the chunks written so far, in order. */
  class Writer {
    var chunks: seq<string>

    constructor ()
      ensures chunks == []
    {
      chunks := [];
    }

    method Write(msg: string)
      modifies this
      ensures chunks == old(chunks) + [msg]
    {
      chunks := chunks + [msg];
    }
  }

  /** `errRes`: write an error message as it is. */
  method ErrRes(msg: string, w: Writer)
    modifies w
    ensures w.chunks == old(w.chunks) + [msg]
  {
    w.Write(msg);
  }

  /** `res`: write a response as it is. */
  method Res(msg: string, w: Writer)
    modifies w
    ensures w.chunks == old(w.chunks) + [msg]
  {
    w.Write(msg);
  }

  class Driver {
    const db: MapDb

    /** `New`: a driver over `db`. */
    constructor (db: MapDb)
      ensures this.db == db
    {
      this.db := db;
    }

    /** `Operate`: on a parse error, write its message and touch nothing else;
        otherwise run every statement in order, writing the chunks, store and
        calls the specification gives. */
    method Operate(src: string, parse: string -> ParseResult, w: Writer)
      modifies db, w
      ensures parse(src).ParseError? ==>
                w.chunks == old(w.chunks) + [parse(src).message]
                && db.entries == old(db.entries) && db.calls == old(db.calls)
      ensures parse(src).Parsed? ==>
                var ss := parse(src).ast.statements;
                w.chunks == old(w.chunks) + Outputs(old(db.entries), ss)
                && db.entries == After(old(db.entries), ss)
                && db.calls == old(db.calls) + Calls(ss)
    {
      var parsed := parse(src);
      if parsed.ParseError? {
        ErrRes(parsed.message, w);
        return;
      }
      var ss := parsed.ast.statements;
      ghost var m0, c0, w0 := db.entries, db.calls, w.chunks;
      for i := 0 to |ss|
        invariant w.chunks == w0 + Outputs(m0, ss[..i])
        invariant db.entries == After(m0, ss[..i])
        invariant db.calls == c0 + Calls(ss[..i])
      {
        RunStep(m0, c0, w0, ss, i, w.chunks, db.entries, db.calls);
        Execute(ss[i], w);
      }
      assert ss[..|ss|] == ss;
    }

    /** The switch on the statement's type: SET and GET write their answer,
        any other type is skipped. */
    method Execute(stmt: Statement, w: Writer)
      modifies db, w
      ensures w.chunks == old(w.chunks) + Chunk(old(db.entries), stmt)
      ensures db.entries == Step(old(db.entries), stmt)
      ensures db.calls == old(db.calls) + StmtCalls(stmt)
    {
      match stmt
      case SetStatement(key, val, exp) =>
        var msg := Set(key, val, exp);
        Res(msg, w);
      case GetStatement(keys) =>
        var msg := Get(keys);
        Res(msg, w);
      case DeleteStatement(_) =>
    }

    /** `set`: one `Set` call with the converted TTL, answered by `Success`. */
    method Set(key: string, val: string, exp: Uint64) returns (msg: string)
      modifies db
      ensures msg == "Success"
      ensures db.entries == old(db.entries)[key := val]
      ensures db.calls == old(db.calls) + [SetCall(key, val, ConvertToDuration(exp))]
    {
      db.Set(key, val, ConvertToDuration(exp));
      msg := "Success";
    }

    /** `get`: look every key up in order, keep the values found and render
        them. Only lookups are made, so the stored map is unchanged. */
    method Get(keys: seq<string>) returns (msg: string)
      modifies db`calls
      ensures msg == Render(Found(db.entries, keys))
      ensures db.calls == old(db.calls) + GetCalls(keys)
    {
      var res: seq<string> := [];
      for i := 0 to |keys|
        invariant res == Found(db.entries, keys[..i])
        invariant db.calls == old(db.calls) + GetCalls(keys[..i])
      {
        assert keys[..i + 1][..i] == keys[..i];
        var val, ok := db.Get(keys[i]);
        if ok {
          res := res + [val];
        }
      }
      assert keys[..|keys|] == keys;
      msg := Render(res);
    }
  }
}
