/** The API server as the reconcilers call it: a store that calls read and change, and the
    answers still to come. A call beyond the last grant gets no answer, which stands for a
    failed call and for a driver that stops there alike. */
module ApiServer {
  import opened Cluster
  import opened Wrappers

  class Server {
    var store: Store
    var grants: seq<Grant>

    constructor (store: Store, grants: seq<Grant>)
      ensures this.store == store && this.grants == grants
    {
      this.store := store;
      this.grants := grants;
    }

    /** What every call does first: use up one grant, or learn that there is none. */
    method Answer() returns (g: Option<Grant>)
      modifies this`grants
      ensures old(grants) == [] ==> g == None && grants == []
      ensures old(grants) != [] ==> g == Some(old(grants)[0]) && grants == old(grants)[1..]
    {
      if grants == [] {
        return None;
      }
      g := Some(grants[0]);
      grants := grants[1..];
    }

    /** The driver's random suffix for the name in its next call. */
    method Suffix() returns (suffix: string)
      ensures suffix == if grants == [] then "" else grants[0].suffix
    {
      suffix := if grants == [] then "" else grants[0].suffix;
    }

    method List(selector: string) returns (r: Result<set<string>, Error>)
      modifies this`grants
      ensures old(grants) == [] ==> r == Err(Unavailable) && grants == []
      ensures old(grants) != [] ==> r == ListDataPods(store, selector) && grants == old(grants)[1..]
    {
      var g := Answer();
      r := if g.None? then Err(Unavailable) else ListDataPods(store, selector);
    }

    method Get(name: string) returns (r: Result<DataPod, Error>)
      modifies this`grants
      ensures old(grants) == [] ==> r == Err(Unavailable) && grants == []
      ensures old(grants) != [] ==> r == GetDataPod(store, name) && grants == old(grants)[1..]
    {
      var g := Answer();
      r := if g.None? then Err(Unavailable) else GetDataPod(store, name);
    }

    method Node(name: string) returns (r: Result<DataNode, Error>)
      modifies this`grants
      ensures old(grants) == [] ==> r == Err(Unavailable) && grants == []
      ensures old(grants) != [] ==> r == GetNode(store, name) && grants == old(grants)[1..]
    {
      var g := Answer();
      r := if g.None? then Err(Unavailable) else GetNode(store, name);
    }

    method Nodes(selector: string) returns (r: Result<seq<DataNode>, Error>)
      modifies this`grants
      ensures old(grants) == [] ==> r == Err(Unavailable) && grants == []
      ensures old(grants) != [] ==> r == ListNodes(store, selector) && grants == old(grants)[1..]
    {
      var g := Answer();
      r := if g.None? then Err(Unavailable) else ListNodes(store, selector);
    }

    /** The server fills in the uid of what it stores. */
    method AddDataPod(draft: DataPod) returns (r: Result<DataPod, Error>)
      modifies this
      ensures old(grants) == [] ==> r == Err(Unavailable) && grants == [] && store == old(store)
      ensures old(grants) != [] ==>
                var d := draft.(uid := old(grants)[0].uid);
                grants == old(grants)[1..] &&
                match CreateDataPod(old(store), d)
                case Ok(s) => store == s && r == Ok(d)
                case Err(e) => store == old(store) && r == Err(e)
    {
      var g := Answer();
      if g.None? {
        return Err(Unavailable);
      }
      var d := draft.(uid := g.value.uid);
      match CreateDataPod(store, d)
      case Ok(s) =>
        store := s;
        r := Ok(d);
      case Err(e) =>
        r := Err(e);
    }

    method AddClaim(draft: Claim) returns (r: Result<Claim, Error>)
      modifies this
      ensures old(grants) == [] ==> r == Err(Unavailable) && grants == [] && store == old(store)
      ensures old(grants) != [] ==>
                var c := draft.(uid := old(grants)[0].uid);
                grants == old(grants)[1..] &&
                match CreateClaim(old(store), c)
                case Ok(s) => store == s && r == Ok(c)
                case Err(e) => store == old(store) && r == Err(e)
    {
      var g := Answer();
      if g.None? {
        return Err(Unavailable);
      }
      var c := draft.(uid := g.value.uid);
      match CreateClaim(store, c)
      case Ok(s) =>
        store := s;
        r := Ok(c);
      case Err(e) =>
        r := Err(e);
    }

    method AddPod(p: Pod) returns (r: Result<Pod, Error>)
      modifies this
      ensures old(grants) == [] ==> r == Err(Unavailable) && grants == [] && store == old(store)
      ensures old(grants) != [] ==>
                && grants == old(grants)[1..]
                && match CreatePod(old(store), p)
                   case Ok(s) => store == s && r == Ok(p)
                   case Err(e) => store == old(store) && r == Err(e)
    {
      var g := Answer();
      if g.None? {
        return Err(Unavailable);
      }
      match CreatePod(store, p)
      case Ok(s) =>
        store := s;
        r := Ok(p);
      case Err(e) =>
        r := Err(e);
    }

    /** A forced server-side apply of a DataPod, by the name it carries. */
    method Apply(patch: DataPodPatch) returns (r: Result<DataPod, Error>)
      modifies this
      ensures old(grants) == [] ==> r == Err(Unavailable) && grants == [] && store == old(store)
      ensures old(grants) != [] ==>
                && grants == old(grants)[1..]
                && store == ApplyDataPod(old(store), patch, old(grants)[0].uid)
                && r == Ok(store.dataPods[patch.name])
    {
      var g := Answer();
      if g.None? {
        return Err(Unavailable);
      }
      store := ApplyDataPod(store, patch, g.value.uid);
      r := Ok(store.dataPods[patch.name]);
    }
  }
}
