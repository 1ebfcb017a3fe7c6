/** What the chat says: the fixed reply texts, the replies built from a
    name or a link, and text relayed from a collaborator. A reply is kept as
    the message it is, and `Wording` gives the text the user sees. */
module Messages {

  datatype Message =
    /** The welcome text, also the reply to any unrecognised idle input. */
    | Welcome
    /** Re-prompt after a malformed pet-info message. */
    | PetInfoFormatError
    /** Reply after the pet was saved. */
    | PetSaved
    /** Reply after the user declined to save. */
    | NotSaved
    /** Reply to anything but Y or N at a confirmation. */
    | AskYesNo
    /** Reply to a status outside "1".."13". */
    | StatusRangeError
    /** Re-prompt after a malformed nutrition request. */
    | NutritionFormatError
    /** Re-prompt after a malformed daily record. */
    | RecordFormatError
    /** Reply after today's record was saved. */
    | RecordSaved
    /** Reply to a gram amount (or label value) that does not parse. */
    | GramsError
    /** Prompt for a landmark name. */
    | AskLandmark
    /** Re-prompt at the restaurant choice. */
    | AskChoice
    /** Prompt listing the thirteen statuses. */
    | NutritionMenu
    /** The list of foods a dog must not eat. */
    | ToxicFoods
    /** Prompt for a breed name. */
    | AskBreed
    /** Prompt for today's record. */
    | DailyRecordPrompt
    /** Prompt for the name whose record to show. */
    | RecordCheckPrompt
    /** Prompt for a package photo. */
    | PackagePrompt
    /** Prompt for a fresh-food photo. */
    | FreshFoodPrompt
    /** Prompt for the restaurant search mode. */
    | RestaurantPrompt
    /** Reply when the image content cannot be fetched. */
    | ImageFetchFailed
    /** Prompt for the fed amount in grams. */
    | AskGrams
    /** Reply when the label extraction finds nothing. */
    | NoNutritionFound
    /** Reply when image processing raises. */
    | ImageError
    /** Reply when no food is detected. */
    | NoFoodFound
    /** Reply when no pet has the given name. */
    | DogNotFound(name: string)
    /** Reply when no record exists today for the given name. */
    | RecordNotFound(name: string)
    /** Reply when the breed table has no row for the given breed. */
    | BreedNotFound(breed: string)
    /** The three replies that send the user to a web form. */
    | CreateProfileLink(baseUrl: string, user: string)
    | ProfileListLink(baseUrl: string, user: string)
    | RecordIntakeLink(baseUrl: string, user: string)
    /** Text produced by a collaborator (breed lookup, place search). */
    | Relay(text: string)

  /** The text of a message as it is sent. */
  function Wording(m: Message): string {
    match m
    case Welcome => "嗨嗨！我是你的寵物飲食小助手 🐾\n想幫毛孩做什麼呢？😉\n\n👇 直接點下方圖文選單開始啦 👇\n✨ 請先完成「新增寵物檔案」哦！✨\n\n更多功能在這兒，快輸入數字看看吧！\n----------------------\n1. 不可食用食物 🚫\n2. 保健建議 💡\n3. 拍包裝算熱量 📸\n4. 拍鮮食算熱量 🍲\n----------------------\n隨時輸入「退出」回到這裡哦 🏠"
    case PetInfoFormatError => "輸入格式錯誤，請按照以下格式重新輸入：\n名字：XXX\n生日：YYYY-MM-DD\n體重：XX公斤"
    case PetSaved => "資料已儲存！請透過圖文選單中的「建立狗狗檔案」來補充品種和狀態資訊。"
    case NotSaved => "資料未儲存。"
    case AskYesNo => "請輸入 Y 或 N"
    case StatusRangeError => "狀態選擇錯誤，請輸入 1-13 的數字。"
    case NutritionFormatError => "輸入格式錯誤，請按照以下格式重新輸入：\n名字：XXX\n狀態：X（1-13 的數字）"
    case RecordFormatError => "輸入格式錯誤，請按照以下格式重新輸入：\n名字：XXX\n卡路里：XX\n水：XX毫升"
    case RecordSaved => "資料已儲存！"
    case GramsError => "請輸入有效的克數（例如：100 或 100克）"
    case AskLandmark => "請輸入地標名稱"
    case AskChoice => "請輸入 1 或 2 選擇查詢方式。"
    case NutritionMenu => "請輸入狗狗的名字：\n狗狗的狀態：\n1. 正在發育的幼犬(4個月以下)\n2. 正在發育的幼犬(4個月-1歲)\n3. 結紮成年犬(1-7歲)\n4. 未結紮成年犬(1-7歲)\n5. 輕度減肥成年犬\n6. 重度減肥成年犬\n7. 過瘦成年犬\n8. 輕度活動量\n9. 劇烈活動量\n10. 高齡犬\n11. 懷孕中的狗媽媽\n12. 哺乳中的狗媽媽\n13. 生病成年犬\n請輸入狗狗目前的狀態(輸入對應數字)：\n\n例如：\n名字：小白\n狀態：3"
    case ToxicFoods => "要小心不要讓狗狗吃到這些食物喔！\n\n🍎 水果：葡萄、櫻桃、鳳梨、生番茄、酪梨、柑橘類、果核、種子\n\n🥕 蔬菜：蔥、韭菜、洋蔥、大蒜、辛香料\n\n🚫 其他：蘆薈、巧克力、夏威夷果、野生蘑菇、牛奶、生肉、糕點類\n\n幫狗狗準備的食物，請記得要全部煮熟並切成小塊喔~"
    case AskBreed => "請輸入狗狗的品種名稱（例如：吉娃娃）"
    case DailyRecordPrompt => "請點選圖文選單中的「紀錄今日攝取」來記錄今日資料，或輸入以下資訊：\n名字：XXX\n卡路里：XX\n水：XX毫升"
    case RecordCheckPrompt => "請點選圖文選單中的「今日已攝取」來查看今日紀錄，或輸入狗狗的名字："
    case PackagePrompt => "請選擇以下方式上傳包裝照片，以計算卡路里和其他營養成分："
    case FreshFoodPrompt => "請選擇以下方式上傳鮮食照片，以計算卡路里和其他營養成分："
    case RestaurantPrompt => "請選擇餐廳查詢方式："
    case ImageFetchFailed => "無法獲取圖片，請再試一次。"
    case AskGrams => "請問這次餵食的克數？"
    case NoNutritionFound => "無法從照片中提取營養成分，請再試一次。"
    case ImageError => "處理圖片時發生錯誤，請再試一次。"
    case NoFoodFound => "未辨識到任何食物！"
    case DogNotFound(name) => "未找到名為 '" + name + "' 的狗狗資料，請確認是否完成設定1。"
    case RecordNotFound(name) => "未找到名為 '" + name + "' 的狗狗今日紀錄。"
    case BreedNotFound(breed) => "未找到 '" + breed + "' 的相關資訊。"
    case CreateProfileLink(baseUrl, user) => "請點擊以下連結來新增寵物檔案：\n" + baseUrl + "/create_dog_profile?user_id=" + user
    case ProfileListLink(baseUrl, user) => "請點擊以下連結來查看狗狗檔案：\n" + baseUrl + "/dog_profile?user_id=" + user
    case RecordIntakeLink(baseUrl, user) => "請點擊以下連結來記錄今日攝取：\n" + baseUrl + "/record_daily_intake?user_id=" + user
    case Relay(text) => text
  }
}
