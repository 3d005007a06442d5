/** `coddy serve restart` with the command line of `coddy serve`: the dispatchers and their record,
    joined to the flag parser. */
module ServeRestart {
  import opened Options
  import Restart
  import opened ServeFlags
  import opened ServeControl
  import opened Dispatcher

  /** How a `coddy serve` process hands its command line on, and which it runs with. */
  function ServeCli(): Cli {
    Cli(Handed, (args: seq<string>) => ReadServe(args).Run?)
  }

  /** The command line reads as the operator's options, the daemon's switches apart. */
  ghost predicate HasOptions(args: seq<string>, line: seq<string>) {
    && ReadServe(args).Run? && ReadServe(line).Run?
    && Restart.SameBut(SERVE, Restart.DAEMON_NAMES, ReadServe(args).st, ReadServe(line).st)
  }

  lemma HandedHasOptions(args: seq<string>)
    requires ReadServe(args).Run?
    ensures HasOptions(args, Handed(args)) && Handed(Handed(args)) == Handed(args)
  {
    EveryProcessReadsTheOperatorsOptions(args, 1);
  }

  /** From the first start on, over any number of restarts and whatever fails on the way, a record
      that is found reads as the operator's options, and so does the command line that every
      dispatcher that runs hands to its workers. */
  lemma EveryRestartHasTheOperatorsOptions(c: Cli, args: seq<string>, steps: seq<Step>)
    requires c == ServeCli() && ReadServe(args).Run? && Legal(c, FirstStart(args), steps)
    ensures var s := Final(c, FirstStart(args), steps);
            && (s.record.Some? ==> HasOptions(args, s.record.value.args))
            && (forall p: nat :: Runs(s, p) ==> HasOptions(args, c.hand(s.procs[p].args)))
  {
    HandedHasOptions(args);
    RestartsFromTheFirstStart(c, args, steps);
  }
}
