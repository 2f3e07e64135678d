/** Pinterest record shapes: boards, pins and profiles. The `scraped_at`
    timestamps are not modelled. */
module PinterestModel {
  import opened Wrappers
  import opened Documents

  datatype PinterestBoard = PinterestBoard(
    id: string,
    name: string,
    description: Option<string>,
    url: string,
    pinCount: int,
    followerCount: int,
    imageUrl: Option<string>,
    ownerUsername: string)

  datatype PinterestPin = PinterestPin(
    id: string,
    title: Option<string>,
    description: Option<string>,
    url: string,
    imageUrl: string,
    imageWidth: Option<int>,
    imageHeight: Option<int>,
    boardId: Option<string>,
    boardName: Option<string>,
    repinCount: int,
    reactionCount: int,
    commentCount: int,
    link: Option<string>,
    ownerUsername: string)

  datatype PinterestProfile = PinterestProfile(
    username: string,
    displayName: string,
    bio: Option<string>,
    profileImage: Option<string>,
    followerCount: int,
    followingCount: int,
    boardCount: int,
    pinCount: int,
    website: Option<string>,
    location: Option<string>)

  function OptInt(x: Option<int>): Value {
    match x
    case Some(v) => Int(v)
    case None => Null
  }

  function BoardDump(b: PinterestBoard): Document {
    map[
      "id" := Str(b.id),
      "name" := Str(b.name),
      "description" := OptStr(b.description),
      "url" := Str(b.url),
      "pin_count" := Int(b.pinCount),
      "follower_count" := Int(b.followerCount),
      "image_url" := OptStr(b.imageUrl),
      "owner_username" := Str(b.ownerUsername)]
  }

  function PinDump(p: PinterestPin): Document {
    map[
      "id" := Str(p.id),
      "title" := OptStr(p.title),
      "description" := OptStr(p.description),
      "url" := Str(p.url),
      "image_url" := Str(p.imageUrl),
      "image_width" := OptInt(p.imageWidth),
      "image_height" := OptInt(p.imageHeight),
      "board_id" := OptStr(p.boardId),
      "board_name" := OptStr(p.boardName),
      "repin_count" := Int(p.repinCount),
      "reaction_count" := Int(p.reactionCount),
      "comment_count" := Int(p.commentCount),
      "link" := OptStr(p.link),
      "owner_username" := Str(p.ownerUsername)]
  }

  function ProfileDump(p: PinterestProfile): Document {
    map[
      "username" := Str(p.username),
      "display_name" := Str(p.displayName),
      "bio" := OptStr(p.bio),
      "profile_image" := OptStr(p.profileImage),
      "follower_count" := Int(p.followerCount),
      "following_count" := Int(p.followingCount),
      "board_count" := Int(p.boardCount),
      "pin_count" := Int(p.pinCount),
      "website" := OptStr(p.website),
      "location" := OptStr(p.location)]
  }
}
