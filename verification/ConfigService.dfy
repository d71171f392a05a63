/** Configuration rows and the read-through cached access to them. */
module ConfigService {
  import opened EventModel
  import opened TtlCache

  const CONFIG_CACHE_TTL: int := 60 * SECOND

  type Configs = map<string, Config>

  datatype ConfigWrite = SaveConfig(cfg: Config) | SetSuspended(eventType: string, flag: bool)

  function WrittenType(w: ConfigWrite): string {
    match w
    case SaveConfig(cfg) => cfg.eventType
    case SetSuspended(t, _) => t
  }

  /** Saving replaces every field, the suspension flag included; suspending a type without a row does nothing. */
  function ExecWrite(rows: Configs, w: ConfigWrite): Configs {
    match w
    case SaveConfig(cfg) => rows[cfg.eventType := cfg]
    case SetSuspended(t, flag) => if t in rows then rows[t := rows[t].(isSuspended := flag)] else rows
  }

  function ExecWrites(rows: Configs, ws: seq<ConfigWrite>): Configs
    decreases |ws|
  {
    if ws == [] then rows else ExecWrite(ExecWrites(rows, ws[..|ws| - 1]), ws[|ws| - 1])
  }

  class ConfigRepository {
    var rows: Configs

    constructor ()
      ensures rows == map[]
    {
      rows := map[];
    }

    method FindByEventType(eventType: string) returns (cfg: Option<Config>)
      ensures cfg == if eventType in rows then Some(rows[eventType]) else None
    {
      if eventType in rows {
        return Some(rows[eventType]);
      }
      return None;
    }

    method Save(cfg: Config)
      modifies this
      ensures rows == ExecWrite(old(rows), SaveConfig(cfg))
      ensures rows == old(rows)[cfg.eventType := cfg]
    {
      if cfg.eventType in rows {
        var row := rows[cfg.eventType];
        row := row.(eventType := cfg.eventType, flowType := cfg.flowType, maxAttempts := cfg.maxAttempts);
        row := row.(eventLifespanSeconds := cfg.eventLifespanSeconds, isSuspended := cfg.isSuspended,
            attempts := cfg.attempts);
        rows := rows[cfg.eventType := row];
      } else {
        rows := rows[cfg.eventType := cfg];
      }
    }

    method UpdateSuspensionState(eventType: string, suspended: bool)
      modifies this
      ensures rows == ExecWrite(old(rows), SetSuspended(eventType, suspended))
      ensures eventType !in old(rows) ==> rows == old(rows)
      ensures eventType in old(rows) ==>
                rows == old(rows)[eventType := old(rows)[eventType].(isSuspended := suspended)]
    {
      if eventType in rows {
        rows := rows[eventType := rows[eventType].(isSuspended := suspended)];
      }
    }
  }

  /** What other callers of the same service do between two accesses of one LoadConfig. */
  datatype Interleaving = Interleaving(
    cleanAt: Time, duringCleanup: seq<CacheOp<Config>>,
    beforeRead: seq<ConfigWrite>, beforeSet: seq<CacheOp<Config>>, setAt: Time)

  /** The cache once a lookup of the key missed: as it was, or cleaned of the stale entry, after what others did. */
  function AfterMiss(entries: Entries<Config>, key: string, others: Interleaving, ttl: int): Entries<Config> {
    if key in entries then ExecOp(ExecOps(entries, others.duringCleanup, ttl), CleanOp(key, others.cleanAt), ttl)
        else entries
  }

  class EventConfigurationService {
    const repo: ConfigRepository
    const cache: TTLCache<Config>

    constructor (repo: ConfigRepository)
      ensures this.repo == repo && fresh(cache) && cache.entries == map[] && cache.ttl == CONFIG_CACHE_TTL
    {
      this.repo := repo;
      cache := new TTLCache(CONFIG_CACHE_TTL);
    }

    /** A cached value is returned as it is; otherwise the row just read is stored and returned. */
    method LoadConfig(eventType: string, now: Time, others: Interleaving) returns (cfg: Option<Config>)
      modifies cache, repo
      ensures var hit := eventType in old(cache.entries) && Unexpired(old(cache.entries)[eventType], now);
              if hit then
                cfg == Some(old(cache.entries)[eventType].value) && cache.entries == old(cache.entries)
                    && repo.rows == old(repo.rows)
              else
                repo.rows == ExecWrites(old(repo.rows), others.beforeRead) &&
                var missed := AfterMiss(old(cache.entries), eventType, others, cache.ttl);
                if eventType !in repo.rows then cfg == None && cache.entries == missed
                else
                  cfg == Some(repo.rows[eventType]) &&
                  cache.entries == ExecOps(missed, others.beforeSet, cache.ttl)[
                                     eventType := CacheEntry(repo.rows[eventType], others.setAt + cache.ttl)]
    {
      var hit := cache.Get(eventType, now, others.duringCleanup, others.cleanAt);
      if hit.Some? {
        return hit;
      }
      repo.rows := ExecWrites(repo.rows, others.beforeRead);
      cfg := repo.FindByEventType(eventType);
      if cfg.None? {
        return None;
      }
      cache.entries := ExecOps(cache.entries, others.beforeSet, cache.ttl);
      cache.Set(eventType, cfg.value, others.setAt);
    }

    /** Write first, evict second; others may run in between. */
    method Write(w: ConfigWrite, others: seq<CacheOp<Config>>)
      modifies cache, repo
      ensures repo.rows == ExecWrite(old(repo.rows), w)
      ensures WrittenType(w) !in cache.entries
      ensures cache.entries == ExecOps(old(cache.entries), others, cache.ttl) - {WrittenType(w)}
    {
      match w {
        case SaveConfig(cfg) => repo.Save(cfg);
        case SetSuspended(t, flag) => repo.UpdateSuspensionState(t, flag);
      }
      cache.entries := ExecOps(cache.entries, others, cache.ttl);
      cache.Delete(WrittenType(w));
    }

    method UpdateConfig(cfg: Config, others: seq<CacheOp<Config>>)
      modifies cache, repo
      ensures repo.rows == old(repo.rows)[cfg.eventType := cfg]
      ensures cache.entries == ExecOps(old(cache.entries), others, cache.ttl) - {cfg.eventType}
    {
      Write(SaveConfig(cfg), others);
    }

    method SuspendProcessing(eventType: string, others: seq<CacheOp<Config>>)
      modifies cache, repo
      ensures eventType in old(repo.rows) ==>
                repo.rows == old(repo.rows)[eventType := old(repo.rows)[eventType].(isSuspended := true)]
      ensures eventType !in old(repo.rows) ==> repo.rows == old(repo.rows)
      ensures cache.entries == ExecOps(old(cache.entries), others, cache.ttl) - {eventType}
    {
      Write(SetSuspended(eventType, true), others);
    }

    method UnsuspendProcessing(eventType: string, others: seq<CacheOp<Config>>)
      modifies cache, repo
      ensures eventType in old(repo.rows) ==>
                repo.rows == old(repo.rows)[eventType := old(repo.rows)[eventType].(isSuspended := false)]
      ensures eventType !in old(repo.rows) ==> repo.rows == old(repo.rows)
      ensures cache.entries == ExecOps(old(cache.entries), others, cache.ttl) - {eventType}
    {
      Write(SetSuspended(eventType, false), others);
    }
  }
}
