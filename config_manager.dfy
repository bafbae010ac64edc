/** The registry of configuration managers (config/config.go). A manager is
    any value of type M; None stands for a nil manager, which is stored too. */
module ConfigManager {
  import opened Wrappers
  import opened Errors

  function NotRegistered(name: string): Error {
    Text("config manager is not registered: " + name)
  }

  class Managers<M> {
    var managers: map<string, Option<M>>
    /** DefaultConfigManager: the name DefaultManager looks up (a package variable
        that tests reassign). */
    var defaultName: string

    constructor (defaultName: string)
      ensures managers == map[] && this.defaultName == defaultName
    {
      managers := map[];
      this.defaultName := defaultName;
    }

    /** Register: store mgr under name, replacing what was there; a nil manager
        is reported to the log (warned) and stored all the same. */
    method Register(name: string, mgr: Option<M>) returns (warned: bool)
      modifies this`managers
      ensures managers == old(managers)[name := mgr]
      ensures warned <==> mgr.None?
    {
      warned := mgr.None?;
      managers := managers[name := mgr];
    }

    /** GetManager: the registered manager, or an error naming the missing name. */
    function GetManager(name: string): (r: Result<Option<M>, Error>)
      reads this
      ensures r.Success? <==> name in managers
      ensures r.Success? ==> r.value == managers[name]
      ensures r.Failure? ==> r.error == NotRegistered(name)
    {
      if name in managers then Success(managers[name]) else Failure(NotRegistered(name))
    }

    /** DefaultManager: the manager under the default name, nil when there is none. */
    function DefaultManager(): (r: Option<M>)
      reads this
      ensures defaultName in managers ==> r == managers[defaultName]
      ensures defaultName !in managers ==> r.None?
    {
      match GetManager(defaultName)
      case Success(m) => m
      case Failure(_) => None
    }
  }

  /** Registration followed by lookup gives back what was registered, for every
      name; re-registering overwrites; other names are untouched. */
  method RegisterThenGet<M>(r: Managers<M>, name: string, first: Option<M>, second: Option<M>, other: string)
    requires other != name
    modifies r
    ensures r.GetManager(name) == Success(second)
    ensures r.GetManager(other) == old(r.GetManager(other))
  {
    var _ := r.Register(name, first);
    var _ := r.Register(name, second);
  }
}
