/**
 The 64-bit type words of nodes and relations, laid out as the kernel lays
 them out: the top bits carry the W3C PROV class, the low bits the subtype.
 */
module ProvTypes {

  /** A type word, or a filter over type words. Words are compared as wholes; only the predicates below look at bits. */
  datatype Word = Word(bits: bv64)

  /** The mode of an inode. */
  datatype FileMode = FileMode(bits: bv16)

  // W3C PROV classes.
  const DM_RELATION := Word(0x8000000000000000)
  const DM_ACTIVITY := Word(0x4000000000000000)
  const DM_ENTITY := Word(0x2000000000000000)
  const DM_AGENT := Word(0x1000000000000000)

  // Relation categories.
  const RL_DERIVED := Word(0x8080000000000000)
  const RL_GENERATED := Word(0x8040000000000000)
  const RL_USED := Word(0x8020000000000000)
  const RL_INFORMED := Word(0x8010000000000000)
  const RL_INFLUENCED := Word(0x8008000000000000)
  const RL_ASSOCIATED := Word(0x8004000000000000)

  // Relation subtypes that the recording engine itself issues or tests.
  const RL_NAMED := Word(0x8080000000000001)
  const RL_VERSION := Word(0x8080000000000002)
  const RL_FREED := Word(0x8080000000000040)
  const RL_TERMINATE_PROC := Word(0x8080000000002000)
  const RL_ARG := Word(0x8080000000004000)
  const RL_ENV := Word(0x8080000000008000)
  const RL_SH_READ := Word(0x8080000000010000)
  const RL_SH_WRITE := Word(0x8080000000020000)
  const RL_PROC_WRITE := Word(0x8040000000000080)
  const RL_PROC_READ := Word(0x8020000000000004)
  const RL_NAMED_PROCESS := Word(0x8020000000008000)
  const RL_LOG := Word(0x8020000000010000)
  const RL_LOAD_FILE := Word(0x8020000040000000)
  const RL_VERSION_TASK := Word(0x8010000000000002)
  const RL_TERMINATE_TASK := Word(0x8010000000000004)
  const RL_RAN_ON := Word(0x8004000000000001)

  // Node subtypes.
  const ACT_TASK := Word(0x4000000000000001)
  const AGT_MACHINE := Word(0x1000000000000020)
  const ENT_STR := Word(0x2000000000000040)
  const ENT_INODE_UNKNOWN := Word(0x2000000000000080)
  const ENT_INODE_LINK := Word(0x2000000000000100)
  const ENT_INODE_FILE := Word(0x2000000000000200)
  const ENT_INODE_DIRECTORY := Word(0x2000000000000400)
  const ENT_INODE_CHAR := Word(0x2000000000000800)
  const ENT_INODE_BLOCK := Word(0x2000000000001000)
  const ENT_INODE_PIPE := Word(0x2000000000002000)
  const ENT_INODE_SOCKET := Word(0x2000000000004000)
  const ENT_ADDR := Word(0x2000000000020000)
  const ENT_PATH := Word(0x2000000000080000)
  const ENT_PACKET := Word(0x2000000000100000)
  const ENT_ARG := Word(0x2000000002000000)
  const ENT_ENV := Word(0x2000000004000000)
  const ENT_PROC := Word(0x2000000008000000)

  predicate IsType(val: Word, ty: Word) { (val.bits & ty.bits) == ty.bits }

  predicate IsRelation(val: Word) { IsType(val, DM_RELATION) }
  predicate IsDerived(val: Word) { IsType(val, RL_DERIVED) }
  predicate IsGenerated(val: Word) { IsType(val, RL_GENERATED) }
  predicate IsUsed(val: Word) { IsType(val, RL_USED) }
  predicate IsInformed(val: Word) { IsType(val, RL_INFORMED) }
  predicate IsInfluenced(val: Word) { IsType(val, RL_INFLUENCED) }
  predicate IsAssociated(val: Word) { IsType(val, RL_ASSOCIATED) }

  /** The word carries this relation category and no other, as every relation type of the kernel does. */
  predicate OfCategory(val: Word, category: Word) { val.bits & 0x80FC000000000000 == category.bits }

  /** The relations that end an object's life. */
  predicate IsClose(val: Word) {
    val == RL_TERMINATE_TASK || val == RL_TERMINATE_PROC || val == RL_FREED
  }

  predicate IsActivity(kind: Word) { IsType(kind, DM_ACTIVITY) }
  predicate IsEntity(kind: Word) { IsType(kind, DM_ENTITY) }
  predicate IsAgent(kind: Word) { IsType(kind, DM_AGENT) }

  predicate IsInode(kind: Word) {
    || kind == ENT_INODE_UNKNOWN
    || kind == ENT_INODE_LINK
    || kind == ENT_INODE_FILE
    || kind == ENT_INODE_DIRECTORY
    || kind == ENT_INODE_CHAR
    || kind == ENT_INODE_BLOCK
    || kind == ENT_INODE_PIPE
    || kind == ENT_INODE_SOCKET
  }

  /** Nodes that carry a security context and user and group ids. */
  predicate HasOwner(kind: Word) { kind == ENT_PROC || IsInode(kind) }

  // The file-type bits of an inode mode.
  const S_IFMT: bv16 := 0xF000

  /** The node type that an inode of the given mode has. */
  function InodeKind(mode: FileMode): Word {
    var fmt := mode.bits & S_IFMT;
    if fmt == 0x6000 then ENT_INODE_BLOCK
    else if fmt == 0x2000 then ENT_INODE_CHAR
    else if fmt == 0x4000 then ENT_INODE_DIRECTORY
    else if fmt == 0x1000 then ENT_INODE_PIPE
    else if fmt == 0xA000 then ENT_INODE_LINK
    else if fmt == 0x8000 then ENT_INODE_FILE
    else if fmt == 0xC000 then ENT_INODE_SOCKET
    else ENT_INODE_UNKNOWN
  }
}
