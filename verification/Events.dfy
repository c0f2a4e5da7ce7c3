/** The events the service commits, each with the data it carries, and the outbox they are
    written to. A null parent is Forest.TOP, and a document root is shown without one. */
module Events {
  import opened Forest

  datatype Option<+T> = None | Some(value: T)

  datatype OrganizationData = OrganizationData(id: Id, parent: Id, code: string, name: string, version: nat)

  /** A file id: one the server mints, or one a seed fixes and may write again. */
  datatype FileId = Minted(n: nat) | Fixed(n: nat)

  /** A file's stage in blobfs's write and delete protocols: Doomed once its delete has begun. */
  datatype FileStatus = Pending | Available | Doomed

  datatype DirectoryData = DirectoryData(id: Id, organization: Id, parent: Option<Id>, name: string, version: nat)
  datatype Object = Object(size: nat, etag: string)
  datatype FileData = FileData(id: FileId, organization: Id, directory: Id, name: string, contentType: string,
                               stored: Option<Object>, version: nat)

  datatype Event =
    | OrganizationCreated(org: OrganizationData)
    | OrganizationEdited(org: OrganizationData)
    | OrganizationTransferred(org: OrganizationData)
    | OrganizationDeleted(orgId: Id, orgVersion: nat)
    | LogoUploaded(logo: FileId, owner: Id, logoVersion: nat)
    | LogoDeleted(logo: FileId, owner: Id, logoVersion: nat)
    | DirectoryCreated(dir: DirectoryData)
    | DirectoryMoved(dir: DirectoryData)
    | DirectoryDeleted(dirId: Id, dirOwner: Id, dirVersion: nat)
    | FileUploaded(file: FileData)
    | FileMoved(file: FileData)
    | FileDeleted(fileId: FileId, fileOwner: Id, fileVersion: nat)
    | StateReset(state: string)
}
