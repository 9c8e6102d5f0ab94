/**
  The columns that quota accounting reads and writes, with the atomic updates that the program
  sends as SQL expressions.  An update of a missing row changes nothing.
 */
module Database {

  /** The values of one integer column, by row id. */
  type Column = map<int, int>

  /** `owner` and `unlimited` are the columns of a token that accounting only reads. */
  datatype Db = Db(
    userQuota: Column, userUsedQuota: Column, requestCount: Column,
    remainQuota: Column, tokenUsedQuota: Column, owner: Column, unlimited: map<int, bool>,
    channelUsedQuota: Column)

  /** UPDATE ... SET column = column + value WHERE id = id */
  function Added(column: Column, id: int, value: int): Column {
    if id in column then column[id := column[id] + value] else column
  }

  function AddUserQuota(db: Db, id: int, quota: int): Db {
    db.(userQuota := Added(db.userQuota, id, quota))
  }

  function AddTokenQuota(db: Db, id: int, quota: int): Db {
    db.(remainQuota := Added(db.remainQuota, id, quota), tokenUsedQuota := Added(db.tokenUsedQuota, id, -quota))
  }

  function AddUserUsedQuota(db: Db, id: int, quota: int): Db {
    db.(userUsedQuota := Added(db.userUsedQuota, id, quota))
  }

  function AddRequestCount(db: Db, id: int, count: int): Db {
    db.(requestCount := Added(db.requestCount, id, count))
  }

  function AddChannelUsedQuota(db: Db, id: int, quota: int): Db {
    db.(channelUsedQuota := Added(db.channelUsedQuota, id, quota))
  }

  /** The value read from a row; a missing row reads as zero. */
  function Value(column: Column, id: int): int {
    if id in column then column[id] else 0
  }
}
