/**
 * Sprite selection: which of a player's three images (idle, walking right,
 * walking left) is drawn for a given player id, animation frame and facing.
 */
module Sprites {
  import opened Common

  /** A loaded image, identified by its source URL. */
  datatype Image = Image(src: string)

  /** An imported asset is either a URL string or an object carrying one in `src`. */
  datatype ImageSource = Url(url: string) | Asset(src: string)

  function GetImageSrc(img: ImageSource): (r: string)
    ensures img.Url? ==> r == img.url
    ensures img.Asset? ==> r == img.src
  {
    match img
    case Url(url) => url
    case Asset(src) => src
  }

  datatype PlayerImages = PlayerImages(idle: Option<Image>, right: Option<Image>, left: Option<Image>)

  datatype GameImages = GameImages(
    player1: Option<PlayerImages>, player2: Option<PlayerImages>,
    player3: Option<PlayerImages>, player4: Option<PlayerImages>,
    key: Option<Image>, door: Option<Image>, death: Option<Image>,
    dangerButton: Option<Image>, box: Option<Image>)

  /** The image set a player id selects: the switch over ids 1 to 4. */
  function ImagesFor(images: GameImages, playerId: int): Option<PlayerImages>
  {
    match playerId
    case 1 => images.player1
    case 2 => images.player2
    case 3 => images.player3
    case 4 => images.player4
    case _ => None
  }

  function GetPlayerSprite(images: GameImages, playerId: int, animFrame: int, facingRight: bool): (r: Option<Image>)
    ensures !(1 <= playerId <= 4) ==> r == None
  {
    var playerImages := ImagesFor(images, playerId);
    if playerImages.None? then None
    else if animFrame == 0 then playerImages.value.idle
    else if facingRight then playerImages.value.right
    else playerImages.value.left
  }

  /** The four sets in player order, a reference for the id switch. */
  function AllSets(images: GameImages): seq<Option<PlayerImages>>
  {
    [images.player1, images.player2, images.player3, images.player4]
  }

  /**
   * For a player id 1 to 4 with an image set, frame 0 draws the idle image
   * whatever the facing, and any other frame the right image when facing
   * right and the left image otherwise, always from that player's own set
   * (the `playerId - 1`-th); an id without a set draws nothing.
   */
  lemma SpriteFromOwnSet(images: GameImages, playerId: int, animFrame: int, facingRight: bool)
    requires 1 <= playerId <= 4
    ensures var own := AllSets(images)[playerId - 1];
            var r := GetPlayerSprite(images, playerId, animFrame, facingRight);
            && (own.None? ==> r.None?)
            && (own.Some? && animFrame == 0 ==> r == own.value.idle == GetPlayerSprite(images, playerId, 0, !facingRight))
            && (own.Some? && animFrame != 0 ==> r == (if facingRight then own.value.right else own.value.left))
  {
  }
}
