/** The API server calls the stager makes, each of which may go wrong. */
module ApiServers {
  import opened Api

  /** How one call fares. Clean: applied and answered truthfully. Reject: not applied, answered
      with an error. Lost: applied, but the caller sees an error. */
  datatype Fault = Clean | Reject | Lost

  datatype Reply = Accepted | NotFound | Refused

  /** Server contents. `minted` maps each BindingPolicy UID handed out so far to the name of
      its BindingPolicy, `issued` each StagedBindingPolicy UID to the object as it was created. */
  datatype Server = Server(
    bps: map<string, Bp>,
    sbps: map<string, Sbp>,
    minted: map<string, string>,
    issued: map<string, Sbp>)

  function DeleteBp(s: Server, name: string, f: Fault): (Server, Reply) {
    match f
    case Reject => (s, Refused)
    case Lost => (s.(bps := s.bps - {name}), Refused)
    case Clean => if name in s.bps then (s.(bps := s.bps - {name}), Accepted) else (s, NotFound)
  }

  /** Creating a BindingPolicy that exists already is an error. */
  function CreateBp(s: Server, name: string, bp: Bp, f: Fault): (Server, bool) {
    if f.Reject? || name in s.bps then (s, false)
    else (s.(bps := s.bps[name := bp], minted := s.minted[bp.uid := name]), f.Clean?)
  }

  function GetSbp(s: Server, name: string, f: Fault): Option<Sbp> {
    if f.Clean? && name in s.sbps then Some(s.sbps[name]) else None
  }

  /** A status update is refused unless the object still is what the caller has read. */
  function PutStatus(s: Server, seen: Sbp, activeStage: string, f: Fault): (Server, bool) {
    if f.Reject? || seen.name !in s.sbps || s.sbps[seen.name] != seen then (s, false)
    else (s.(sbps := s.sbps[seen.name := seen.(activeStage := activeStage)]), f.Clean?)
  }

  /** The server as an object; `log` records its contents after every call. */
  class ApiServer {
    var bps: map<string, Bp>
    var sbps: map<string, Sbp>
    ghost var minted: map<string, string>
    ghost var issued: map<string, Sbp>
    ghost var log: seq<Server>

    ghost function Contents(): Server
      reads this
    {
      Server(bps, sbps, minted, issued)
    }

    constructor ()
      ensures Contents() == Server(map[], map[], map[], map[]) && log == []
    {
      bps, sbps, minted, issued, log := map[], map[], map[], map[], [];
    }

    method DeleteBindingPolicy(name: string, f: Fault) returns (reply: Reply)
      modifies this
      ensures (Contents(), reply) == DeleteBp(old(Contents()), name, f)
      ensures log == old(log) + [Contents()]
    {
      reply := if f != Clean then Refused else if name in bps then Accepted else NotFound;
      if f != Reject {
        bps := bps - {name};
      }
      assert name !in old(bps) ==> bps == old(bps);
      log := log + [Contents()];
    }

    method CreateBindingPolicy(name: string, bp: Bp, f: Fault) returns (ok: bool)
      modifies this
      ensures (Contents(), ok) == CreateBp(old(Contents()), name, bp, f)
      ensures log == old(log) + [Contents()]
    {
      ok := name !in bps && f.Clean?;
      if name !in bps && f != Reject {
        bps := bps[name := bp];
        minted := minted[bp.uid := name];
      }
      log := log + [Contents()];
    }

    method GetStagedBindingPolicy(name: string, f: Fault) returns (sbp: Option<Sbp>)
      modifies this`log
      ensures Contents() == old(Contents()) && sbp == GetSbp(Contents(), name, f)
      ensures log == old(log) + [Contents()]
    {
      sbp := if f.Clean? && name in sbps then Some(sbps[name]) else None;
      log := log + [Contents()];
    }

    method UpdateStatus(seen: Sbp, activeStage: string, f: Fault) returns (ok: bool)
      modifies this
      ensures (Contents(), ok) == PutStatus(old(Contents()), seen, activeStage, f)
      ensures log == old(log) + [Contents()]
    {
      ok := false;
      if f != Reject && seen.name in sbps && sbps[seen.name] == seen {
        sbps := sbps[seen.name := seen.(activeStage := activeStage)];
        ok := f.Clean?;
      }
      log := log + [Contents()];
    }
  }
}
