/** The in-memory grant store: authorization codes, refresh tokens and device authorizations. */
module Grants {
  import opened Wrappers
  import opened Durations
  import TtlTable
  import Devices

  datatype AuthCode = AuthCode(
    userId: string, clientId: string, redirectUri: string, scope: string, audience: string,
    nonce: string, sessionId: string, codeChallenge: string, codeChallengeMethod: string)

  datatype RefreshGrant = RefreshGrant(
    userId: string, clientId: string, scope: string, audience: string, sessionId: string)

  /** A device authorization. The store hands out the very object it holds, so this one is shared
      and mutable. */
  class DeviceCode {
    const deviceCode: string
    const userCode: string
    const clientId: string
    const scope: string
    const audience: string
    var userId: string
    var expiresAt: int
    var interval: int
    var userAuthorized: bool
    var accessDenied: bool
    var expired: bool

    constructor (deviceCode: string, userCode: string, clientId: string, scope: string, audience: string)
      ensures Value() == Devices.Record(deviceCode, userCode, "", clientId, scope, audience, 0, 0, false, false, false)
    {
      this.deviceCode, this.userCode, this.clientId := deviceCode, userCode, clientId;
      this.scope, this.audience := scope, audience;
      userId, expiresAt, interval := "", 0, 0;
      userAuthorized, accessDenied, expired := false, false, false;
    }

    ghost function Value(): Devices.Record
      reads this
    {
      Devices.Record(deviceCode, userCode, userId, clientId, scope, audience, expiresAt, interval,
                     userAuthorized, accessDenied, expired)
    }
  }

  const DEFAULT_CODE_TTL := 5 * MINUTE
  const DEFAULT_REFRESH_TTL := 30 * 24 * HOUR
  const DEFAULT_DEVICE_TTL := 15 * MINUTE

  class Store {
    var codes: map<string, TtlTable.Entry<AuthCode>>
    var refresh: map<string, TtlTable.Entry<RefreshGrant>>
    var devices: map<string, DeviceCode>
    var userCodes: map<string, string>
    const codeTTL: int
    const refreshTTL: int
    const deviceTTL: int

    ghost var tables: Devices.Tables  // the device maps, and every device record ever stored, as values
    ghost var codeLog: seq<TtlTable.Op<AuthCode>>
    ghost var refreshLog: seq<TtlTable.Op<RefreshGrant>>
    ghost var deviceLog: seq<Devices.Op>

    ghost predicate CodesValid()
      reads this`codes, this`codeLog
    {
      codeTTL > 0 && TtlTable.WellTimed(codeLog) && codes == TtlTable.Run(codeTTL, codeLog)
    }

    ghost predicate RefreshValid()
      reads this`refresh, this`refreshLog
    {
      refreshTTL > 0 && TtlTable.WellTimed(refreshLog) && refresh == TtlTable.Run(refreshTTL, refreshLog)
    }

    /** `tables` shows what the maps and their objects hold. Every object carries its own key, so
        distinct device codes hold distinct objects. */
    ghost predicate Mirrored()
      reads this`devices, this`userCodes, this`tables, devices.Values
    {
      && tables.live == devices.Keys
      && tables.index == userCodes
      && forall k :: k in devices ==> devices[k].deviceCode == k && tables.recs[k] == devices[k].Value()
    }

    ghost predicate DevicesValid()
      reads this`devices, this`userCodes, this`tables, this`deviceLog, devices.Values
    {
      deviceTTL > 0 && Mirrored() && Devices.WellTimed(deviceLog) && tables == Devices.Run(deviceTTL, deviceLog)
    }

    ghost predicate Valid()
      reads this, devices.Values
    {
      CodesValid() && RefreshValid() && DevicesValid()
    }

    constructor (codeTTL: int, refreshTTL: int, deviceTTL: Option<int>)
      ensures Valid() && fresh(devices.Values)
      ensures codes == map[] && refresh == map[] && devices == map[]
      ensures codeLog == [] && refreshLog == [] && deviceLog == []
      ensures this.codeTTL == if codeTTL <= 0 then DEFAULT_CODE_TTL else codeTTL
      ensures this.refreshTTL == if refreshTTL <= 0 then DEFAULT_REFRESH_TTL else refreshTTL
      ensures this.deviceTTL == if deviceTTL.Some? && deviceTTL.value > 0 then deviceTTL.value else DEFAULT_DEVICE_TTL
    {
      this.codeTTL := if codeTTL <= 0 then DEFAULT_CODE_TTL else codeTTL;
      this.refreshTTL := if refreshTTL <= 0 then DEFAULT_REFRESH_TTL else refreshTTL;
      this.deviceTTL := if deviceTTL.Some? && deviceTTL.value > 0 then deviceTTL.value else DEFAULT_DEVICE_TTL;
      codes, refresh, devices, userCodes := map[], map[], map[], map[];
      tables := Devices.Tables(map[], {}, map[]);
      codeLog, refreshLog, deviceLog := [], [], [];
    }

    // ----- authorization codes -----

    /** `stamp` is read before the lock is taken, `now` by the clean-up under the lock. */
    method SaveCode(code: string, ac: AuthCode, stamp: int, now: int)
      requires CodesValid() && stamp <= now && TtlTable.Clock(codeLog) <= now
      modifies this`codes, this`codeLog
      ensures CodesValid()
      ensures codeLog == old(codeLog) + [TtlTable.SaveOp(code, ac, stamp, now)]
      ensures codes == TtlTable.Save(old(codes), code, ac, stamp, codeTTL, now)
      ensures |codes| <= TtlTable.SavesAt(codeTTL, codeLog, now)
      ensures |codes| <= TtlTable.SavesInWindow(codeTTL, old(codeLog), now) + 1
    {
      ghost var op := TtlTable.SaveOp(code, ac, stamp, now);
      TtlTable.RunSnoc(codeTTL, codeLog, op);
      TtlTable.SizeAfterSave(codeTTL, codeLog, op);
      TtlTable.SizeBySaveTime(codeTTL, codeLog, op);
      CleanExpiredCodesLocked(now);
      codes := codes[code := TtlTable.Entry(ac, stamp + codeTTL)];
      codeLog := codeLog + [op];
    }

    method ConsumeCode(code: string, now: int) returns (ac: Option<AuthCode>)
      requires CodesValid() && TtlTable.Clock(codeLog) <= now
      modifies this`codes, this`codeLog
      ensures CodesValid()
      ensures codeLog == old(codeLog) + [TtlTable.ConsumeOp(code, now)]
      ensures codes == TtlTable.Drop(old(codes), code)
      ensures ac == TtlTable.Find(old(codes), code, now)
      ensures ac.Some? <==> exists i :: TtlTable.LiveSave(codeTTL, old(codeLog), i, code, now)
      ensures forall i :: TtlTable.LiveSave(codeTTL, old(codeLog), i, code, now) ==> ac == Some(old(codeLog)[i].grant)
    {
      TtlTable.RunSnoc(codeTTL, codeLog, TtlTable.ConsumeOp(code, now));
      TtlTable.FindMeetsHistory(codeTTL, codeLog, code, now);
      codeLog := codeLog + [TtlTable.ConsumeOp(code, now)];
      if code !in codes || codes[code].expiresAt < now {
        if code in codes {
          codes := codes - {code};
        }
        return None;
      }
      ac := Some(codes[code].grant);
      codes := codes - {code};
    }

    method CleanExpiredCodesLocked(now: int)
      modifies this`codes
      ensures codes == TtlTable.Clean(old(codes), now)
    {
      var todo := codes.Keys;
      while todo != {}
        invariant todo <= codes.Keys <= old(codes).Keys
        invariant forall k :: k in codes ==> codes[k] == old(codes)[k]
        invariant forall k :: k in old(codes) ==> (k in codes <==> k in todo || now <= old(codes)[k].expiresAt)
        decreases |todo|
      {
        var k :| k in todo;
        todo := todo - {k};
        if codes[k].expiresAt < now {
          codes := codes - {k};
        }
      }
    }

    // ----- refresh tokens -----

    method SaveRefreshToken(token: string, rg: RefreshGrant, stamp: int, now: int)
      requires RefreshValid() && stamp <= now && TtlTable.Clock(refreshLog) <= now
      modifies this`refresh, this`refreshLog
      ensures RefreshValid()
      ensures refreshLog == old(refreshLog) + [TtlTable.SaveOp(token, rg, stamp, now)]
      ensures refresh == TtlTable.Save(old(refresh), token, rg, stamp, refreshTTL, now)
      ensures |refresh| <= TtlTable.SavesAt(refreshTTL, refreshLog, now)
      ensures |refresh| <= TtlTable.SavesInWindow(refreshTTL, old(refreshLog), now) + 1
    {
      ghost var op := TtlTable.SaveOp(token, rg, stamp, now);
      TtlTable.RunSnoc(refreshTTL, refreshLog, op);
      TtlTable.SizeAfterSave(refreshTTL, refreshLog, op);
      TtlTable.SizeBySaveTime(refreshTTL, refreshLog, op);
      CleanExpiredRefreshLocked(now);
      refresh := refresh[token := TtlTable.Entry(rg, stamp + refreshTTL)];
      refreshLog := refreshLog + [op];
    }

    method ConsumeRefreshToken(token: string, now: int) returns (rg: Option<RefreshGrant>)
      requires RefreshValid() && TtlTable.Clock(refreshLog) <= now
      modifies this`refresh, this`refreshLog
      ensures RefreshValid()
      ensures refreshLog == old(refreshLog) + [TtlTable.ConsumeOp(token, now)]
      ensures refresh == TtlTable.Drop(old(refresh), token)
      ensures rg == TtlTable.Find(old(refresh), token, now)
      ensures rg.Some? <==> exists i :: TtlTable.LiveSave(refreshTTL, old(refreshLog), i, token, now)
      ensures forall i :: TtlTable.LiveSave(refreshTTL, old(refreshLog), i, token, now) ==>
                rg == Some(old(refreshLog)[i].grant)
    {
      TtlTable.RunSnoc(refreshTTL, refreshLog, TtlTable.ConsumeOp(token, now));
      TtlTable.FindMeetsHistory(refreshTTL, refreshLog, token, now);
      refreshLog := refreshLog + [TtlTable.ConsumeOp(token, now)];
      if token !in refresh || refresh[token].expiresAt < now {
        if token in refresh {
          refresh := refresh - {token};
        }
        return None;
      }
      rg := Some(refresh[token].grant);
      refresh := refresh - {token};
    }

    /** The answer tells whether the map still held the token, which depends on clean-up. */
    method RevokeRefreshToken(token: string) returns (held: bool)
      requires RefreshValid()
      modifies this`refresh, this`refreshLog
      ensures RefreshValid()
      ensures refreshLog == old(refreshLog) + [TtlTable.RevokeOp(token)]
      ensures refresh == TtlTable.Drop(old(refresh), token)
      ensures held <==> token in old(refresh)
    {
      TtlTable.RunSnoc(refreshTTL, refreshLog, TtlTable.RevokeOp(token));
      refreshLog := refreshLog + [TtlTable.RevokeOp(token)];
      held := token in refresh;
      if held {
        refresh := refresh - {token};
      }
    }

    method CleanExpiredRefreshLocked(now: int)
      modifies this`refresh
      ensures refresh == TtlTable.Clean(old(refresh), now)
    {
      var todo := refresh.Keys;
      while todo != {}
        invariant todo <= refresh.Keys <= old(refresh).Keys
        invariant forall k :: k in refresh ==> refresh[k] == old(refresh)[k]
        invariant forall k :: k in old(refresh) ==> (k in refresh <==> k in todo || now <= old(refresh)[k].expiresAt)
        decreases |todo|
      {
        var k :| k in todo;
        todo := todo - {k};
        if refresh[k].expiresAt < now {
          refresh := refresh - {k};
        }
      }
    }

    // ----- device authorizations -----

    /** The handler passes a new object that carries its own key and is in no map yet. */
    method SaveDeviceCode(deviceCode: string, userCode: string, dc: DeviceCode, stamp: int, now: int)
      requires DevicesValid() && stamp <= now && Devices.Clock(deviceLog) <= now
      requires dc.deviceCode == deviceCode && dc !in devices.Values
      modifies this`devices, this`userCodes, this`tables, this`deviceLog, dc
      ensures DevicesValid()
      ensures deviceLog == old(deviceLog) + [Devices.SaveOp(deviceCode, userCode, old(dc.Value()), stamp, now)]
      ensures tables == Devices.Save(old(tables), deviceCode, userCode, old(dc.Value()), stamp, deviceTTL, now)
      ensures forall k :: k in devices ==>
                (k == deviceCode && devices[k] == dc) || (k in old(devices) && devices[k] == old(devices)[k])
    {
      ghost var op := Devices.SaveOp(deviceCode, userCode, dc.Value(), stamp, now);
      Devices.RunSnoc(deviceTTL, deviceLog, op);
      StampDevice(dc, stamp);
      CleanExpiredDevicesLocked(now);
      InsertDeviceLocked(deviceCode, userCode, dc);
      deviceLog := deviceLog + [op];
    }

    method InsertDeviceLocked(deviceCode: string, userCode: string, dc: DeviceCode)
      requires Mirrored() && dc.deviceCode == deviceCode
      modifies this`devices, this`userCodes, this`tables
      ensures Mirrored() && devices == old(devices)[deviceCode := dc]
      ensures tables == Devices.Tables(old(tables).recs[deviceCode := dc.Value()], old(tables).live + {deviceCode},
                                       old(tables).index[Devices.Norm(userCode) := deviceCode])
    {
      devices := devices[deviceCode := dc];
      userCodes := userCodes[Devices.Norm(userCode) := deviceCode];
      tables := Devices.Tables(tables.recs[deviceCode := dc.Value()], tables.live + {deviceCode}, userCodes);
    }

    method StampDevice(dc: DeviceCode, stamp: int)
      requires Mirrored() && dc !in devices.Values
      modifies dc
      ensures Mirrored()
      ensures dc.Value() == old(dc.Value()).(expiresAt := stamp + deviceTTL, interval := 5)
    {
      dc.expiresAt := stamp + deviceTTL;
      dc.interval := 5;
    }

    /** Returns the object held in the map, without consuming it. */
    method GetDeviceCode(deviceCode: string, cleanAt: int, now: int) returns (dc: DeviceCode?)
      requires DevicesValid() && Devices.Clock(deviceLog) <= cleanAt <= now
      modifies this`devices, this`userCodes, this`tables, this`deviceLog
      ensures DevicesValid()
      ensures deviceLog == old(deviceLog) + [Devices.GetOp(deviceCode, cleanAt, now)]
      ensures tables == Devices.Clean(old(tables), cleanAt)
      ensures forall k :: k in devices ==> k in old(devices) && devices[k] == old(devices)[k]
      ensures dc != null <==> Devices.Found(tables, deviceCode, now)
      ensures dc != null ==> dc == devices[deviceCode] && dc.Value() == tables.recs[deviceCode]
      ensures Devices.UniqueSaves(deviceTTL, old(deviceLog)) ==>
                (dc != null <==>
                   && deviceCode in Devices.Chronicle(deviceTTL, old(deviceLog))
                   && Devices.LiveAt(Devices.Chronicle(deviceTTL, old(deviceLog))[deviceCode], now))
    {
      Devices.RunSnoc(deviceTTL, deviceLog, Devices.GetOp(deviceCode, cleanAt, now));
      assert Devices.UniqueSaves(deviceTTL, deviceLog) ==>
          (Devices.Found(Devices.Clean(tables, cleanAt), deviceCode, now) <==>
             && deviceCode in Devices.Chronicle(deviceTTL, deviceLog)
             && Devices.LiveAt(Devices.Chronicle(deviceTTL, deviceLog)[deviceCode], now)) by {
        if Devices.UniqueSaves(deviceTTL, deviceLog) {
          Devices.AnswersMeetHistory(deviceTTL, deviceLog, now);
        }
      }
      CleanExpiredDevicesLocked(cleanAt);
      deviceLog := deviceLog + [Devices.GetOp(deviceCode, cleanAt, now)];
      if deviceCode !in devices || devices[deviceCode].expired || devices[deviceCode].expiresAt < now {
        return null;
      }
      dc := devices[deviceCode];
    }

    method AuthorizeDeviceCode(userCode: string, userId: string, now: int) returns (ok: bool)
      requires DevicesValid() && Devices.Clock(deviceLog) <= now
      modifies this`tables, this`deviceLog, devices.Values`userAuthorized, devices.Values`userId
      ensures DevicesValid()
      ensures deviceLog == old(deviceLog) + [Devices.AuthorizeOp(userCode, userId, now)]
      ensures tables == Devices.Authorize(old(tables), userCode, userId, now)
      ensures ok <==> Devices.Lookup(old(tables), userCode, now).Some?
    {
      Devices.RunSnoc(deviceTTL, deviceLog, Devices.AuthorizeOp(userCode, userId, now));
      deviceLog := deviceLog + [Devices.AuthorizeOp(userCode, userId, now)];
      var normalized := Devices.Norm(userCode);
      if normalized !in userCodes {
        return false;
      }
      var deviceCode := userCodes[normalized];
      if deviceCode !in devices || devices[deviceCode].expired || devices[deviceCode].expiresAt < now {
        return false;
      }
      SetAuthorized(deviceCode, devices[deviceCode], userId);
      ok := true;
    }

    method SetAuthorized(deviceCode: string, dc: DeviceCode, userId: string)
      requires Mirrored() && deviceCode in devices && devices[deviceCode] == dc
      modifies this`tables, dc`userAuthorized, dc`userId
      ensures Mirrored()
      ensures var rec := old(tables).recs[deviceCode].(authorized := true, userId := userId);
              tables == old(tables).(recs := old(tables).recs[deviceCode := rec])
    {
      dc.userAuthorized := true;
      dc.userId := userId;
      ghost var rec := tables.recs[deviceCode].(authorized := true, userId := userId);
      tables := tables.(recs := tables.recs[deviceCode := rec]);
    }

    /** The answer tells whether the map still held the device, which depends on clean-up. */
    method DenyDeviceCode(userCode: string) returns (held: bool)
      requires DevicesValid()
      modifies this`tables, this`deviceLog, devices.Values`accessDenied
      ensures DevicesValid()
      ensures deviceLog == old(deviceLog) + [Devices.DenyOp(userCode)]
      ensures tables == Devices.Deny(old(tables), userCode)
      ensures held <==> Devices.DenyTarget(old(tables), userCode).Some?
    {
      Devices.RunSnoc(deviceTTL, deviceLog, Devices.DenyOp(userCode));
      deviceLog := deviceLog + [Devices.DenyOp(userCode)];
      var normalized := Devices.Norm(userCode);
      if normalized !in userCodes {
        return false;
      }
      var deviceCode := userCodes[normalized];
      if deviceCode !in devices {
        return false;
      }
      SetDenied(deviceCode, devices[deviceCode]);
      held := true;
    }

    method SetDenied(deviceCode: string, dc: DeviceCode)
      requires Mirrored() && deviceCode in devices && devices[deviceCode] == dc
      modifies this`tables, dc`accessDenied
      ensures Mirrored()
      ensures var rec := old(tables).recs[deviceCode].(denied := true);
              tables == old(tables).(recs := old(tables).recs[deviceCode := rec])
    {
      dc.accessDenied := true;
      tables := tables.(recs := tables.recs[deviceCode := tables.recs[deviceCode].(denied := true)]);
    }

    /** Removes the device and returns its object, which no later call can reach any more. */
    method ConsumeDeviceCode(deviceCode: string, now: int) returns (dc: DeviceCode?)
      requires DevicesValid() && Devices.Clock(deviceLog) <= now
      modifies this`devices, this`userCodes, this`tables, this`deviceLog
      ensures DevicesValid()
      ensures deviceLog == old(deviceLog) + [Devices.ConsumeOp(deviceCode, now)]
      ensures tables == Devices.Consume(old(tables), deviceCode, now)
      ensures dc != null <==> Devices.Consumable(old(tables), deviceCode, now)
      ensures dc != null ==>
                && deviceCode in old(devices) && dc == old(devices)[deviceCode]
                && devices == old(devices) - {deviceCode} && dc !in devices.Values
                && dc.Value() == old(tables).recs[deviceCode]
      ensures dc == null ==> devices == old(devices)
      ensures Devices.UniqueSaves(deviceTTL, old(deviceLog)) ==>
                (dc != null <==>
                   && deviceCode in Devices.Chronicle(deviceTTL, old(deviceLog))
                   && Devices.LiveAt(Devices.Chronicle(deviceTTL, old(deviceLog))[deviceCode], now)
                   && Devices.Chronicle(deviceTTL, old(deviceLog))[deviceCode].rec.authorized)
    {
      Devices.RunSnoc(deviceTTL, deviceLog, Devices.ConsumeOp(deviceCode, now));
      assert Devices.UniqueSaves(deviceTTL, deviceLog) ==>
          (Devices.Consumable(tables, deviceCode, now) <==>
             && deviceCode in Devices.Chronicle(deviceTTL, deviceLog)
             && Devices.LiveAt(Devices.Chronicle(deviceTTL, deviceLog)[deviceCode], now)
             && Devices.Chronicle(deviceTTL, deviceLog)[deviceCode].rec.authorized) by {
        if Devices.UniqueSaves(deviceTTL, deviceLog) {
          Devices.AnswersMeetHistory(deviceTTL, deviceLog, now);
        }
      }
      deviceLog := deviceLog + [Devices.ConsumeOp(deviceCode, now)];
      if deviceCode !in devices || !devices[deviceCode].userAuthorized || devices[deviceCode].expired
          || devices[deviceCode].expiresAt < now {
        return null;
      }
      dc := devices[deviceCode];
      DeleteDeviceLocked(deviceCode);
    }

    method DeleteDeviceLocked(deviceCode: string)
      requires Mirrored() && deviceCode in devices
      modifies this`devices, this`userCodes, this`tables
      ensures Mirrored()
      ensures devices == old(devices) - {deviceCode} && tables == Devices.Remove(old(tables), deviceCode)
    {
      var normalized := Devices.Norm(devices[deviceCode].userCode);
      devices := devices - {deviceCode};
      userCodes := userCodes - {normalized};
      tables := Devices.Remove(tables, deviceCode);
    }

    /** Visits one device of a clean-up of `before`; those in `todo` are still to be visited. */
    method CleanOneLocked(deviceCode: string, now: int, ghost before: Devices.Tables, ghost todo: set<string>)
      requires Mirrored() && deviceCode in devices && deviceCode in todo
      requires tables == Devices.CleanPart(before, todo, now)
      modifies this`devices, this`userCodes, this`tables
      ensures Mirrored()
      ensures devices == old(devices) || devices == old(devices) - {deviceCode}
      ensures tables == Devices.CleanPart(before, todo - {deviceCode}, now)
    {
      Devices.CleanPartStep(before, todo, deviceCode, now);
      var v := devices[deviceCode];
      if v.expiresAt < now || v.expired {
        DeleteDeviceLocked(deviceCode);
      }
    }

    method CleanExpiredDevicesLocked(now: int)
      requires Mirrored()
      modifies this`devices, this`userCodes, this`tables
      ensures Mirrored()
      ensures forall k :: k in devices ==> k in old(devices) && devices[k] == old(devices)[k]
      ensures tables == Devices.Clean(old(tables), now)
    {
      var todo := devices.Keys;
      ghost var held, before := devices, tables;
      Devices.CleanPartEnds(before, now);
      while todo != {}
        invariant Mirrored() && todo <= devices.Keys
        invariant forall k :: k in devices ==> k in held && devices[k] == held[k]
        invariant tables == Devices.CleanPart(before, todo, now)
        decreases |todo|
      {
        var k :| k in todo;
        CleanOneLocked(k, now, before, todo);
        todo := todo - {k};
      }
    }

    /** Right after a save, the device map holds no more devices than were saved within the last time to
        live before its clean-up. */
    lemma DeviceMapBound(op: Devices.Op, before: seq<Devices.Op>)
      requires DevicesValid() && op.SaveOp? && deviceLog == before + [op]
      ensures |devices| <= Devices.SavesAt(deviceTTL, deviceLog, op.at)
      ensures |devices| <= Devices.SavesInWindow(deviceTTL, before, op.at) + 1
    {
      Devices.SizeAfterSave(deviceTTL, before, op);
      Devices.SizeBySaveTime(deviceTTL, before, op);
    }
  }
}
